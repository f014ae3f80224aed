/**
 * The schema-adaptive appointment repository: identifier quoting, column discovery with a
 * process-wide cache, payload normalisation across English and Spanish field names, and
 * list / get / create / update / delete over appointments joined to patients and doctors.
 *
 * The database is held in memory: each table is a column-name list plus a map from row id
 * to row. Patient and doctor rows map lower-cased column names to cells. Appointment rows
 * store the six mutable fields per concept; the physical column each concept lives in is
 * fixed for the life of the process by the resolved mapping.
 */
module Appointments {
  import opened Wrappers
  import opened Js
  import SqlOrder

  // ---------------------------------------------------------------------------------------
  // q: identifier quoting

  function EscapeBackticks(id: string): (r: string)
    ensures |r| >= |id|
  {
    if id == [] then []
    else (if id[0] == '`' then "``" else [id[0]]) + EscapeBackticks(id[1..])
  }

  /** `q(id)`: wraps the name in backticks, doubling every backtick inside it. */
  function Quote(id: string): (r: string)
    ensures |r| == |EscapeBackticks(id)| + 2
    ensures r[0] == '`' && r[|r| - 1] == '`'
  {
    "`" + EscapeBackticks(id) + "`"
  }

  /** How the SQL parser reads the inside of a quoted identifier: a doubled backtick is one
      backtick, and a lone backtick would end the identifier early. */
  function UnescapeBackticks(s: string): Option<string>
  {
    if s == [] then Some([])
    else if s[0] == '`' then
      if |s| >= 2 && s[1] == '`' then
        match UnescapeBackticks(s[2..])
        case Some(t) => Some("`" + t)
        case None => None
      else None
    else
      match UnescapeBackticks(s[1..])
      case Some(t) => Some([s[0]] + t)
      case None => None
  }

  /** Reads a whole backtick-quoted identifier. */
  function Unquote(s: string): Option<string>
  {
    if |s| >= 2 && s[0] == '`' && s[|s| - 1] == '`' then UnescapeBackticks(s[1..|s| - 1]) else None
  }

  lemma {:induction false} UnescapeBackticksEscape(id: string)
    ensures UnescapeBackticks(EscapeBackticks(id)) == Some(id)
  {
    if id != [] {
      var rest := EscapeBackticks(id[1..]);
      UnescapeBackticksEscape(id[1..]);
      if id[0] == '`' {
        assert EscapeBackticks(id) == "``" + rest;
        assert ("``" + rest)[2..] == rest;
      } else {
        assert EscapeBackticks(id) == [id[0]] + rest;
        assert ([id[0]] + rest)[1..] == rest;
      }
      assert id == [id[0]] + id[1..];
    }
  }

  /** Quoting is safe: the parser reads back exactly the original name, whatever it contains. */
  lemma QuoteRoundTrip(id: string)
    ensures Unquote(Quote(id)) == Some(id)
  {
    var r := Quote(id);
    assert r[1..|r| - 1] == EscapeBackticks(id);
    UnescapeBackticksEscape(id);
  }

  // ---------------------------------------------------------------------------------------
  // pick: first candidate that names an existing column, case-insensitively

  function LowerAll(cols: seq<string>): (r: seq<string>)
    ensures |r| == |cols|
  {
    seq(|cols|, i requires 0 <= i < |cols| => Lower(cols[i]))
  }

  /** `lower.includes(name.toLowerCase())`: the table has a column spelled like `name` up to
      letter case. */
  predicate HasColumn(cols: seq<string>, name: string)
  {
    Lower(name) in LowerAll(cols)
  }

  lemma HasColumnMeaning(cols: seq<string>, name: string)
    ensures HasColumn(cols, name) <==> exists c :: c in cols && Lower(c) == Lower(name)
  {
    var lower := LowerAll(cols);
    if Lower(name) in lower {
      var i :| 0 <= i < |lower| && lower[i] == Lower(name);
      assert cols[i] in cols;
    }
    if exists c :: c in cols && Lower(c) == Lower(name) {
      var c :| c in cols && Lower(c) == Lower(name);
      var i :| 0 <= i < |cols| && cols[i] == c;
      assert lower[i] == Lower(name);
    }
  }

  /** `candidates[i]` names a column and no earlier candidate does. */
  ghost predicate FirstHitAt(cols: seq<string>, candidates: seq<string>, i: int)
  {
    && 0 <= i < |candidates|
    && HasColumn(cols, candidates[i])
    && forall j :: 0 <= j < i ==> !HasColumn(cols, candidates[j])
  }

  /** Some candidate names a column. */
  ghost predicate AnyColumn(cols: seq<string>, candidates: seq<string>)
  {
    exists i :: 0 <= i < |candidates| && HasColumn(cols, candidates[i])
  }

  /** `candidates.find(c => lower.includes(c.toLowerCase()))`, as an index. */
  function FindCandidate(cols: seq<string>, candidates: seq<string>): (r: Option<nat>)
    ensures r.Some? ==> FirstHitAt(cols, candidates, r.value)
    ensures r.None? ==> forall j :: 0 <= j < |candidates| ==> !HasColumn(cols, candidates[j])
  {
    if candidates == [] then None
    else if HasColumn(cols, candidates[0]) then Some(0)
    else
      match FindCandidate(cols, candidates[1..])
      case None => None
      case Some(i) => Some(i + 1)
  }

  /** `pick(cols, candidates)`: `find(...) || null`, so an empty candidate would read as no match. */
  function Pick(cols: seq<string>, candidates: seq<string>): (r: Option<string>)
    ensures r.Some? ==> r.value in candidates && r.value != "" && HasColumn(cols, r.value)
    ensures r.Some? ==> exists i :: FirstHitAt(cols, candidates, i) && candidates[i] == r.value
    ensures forall i :: FirstHitAt(cols, candidates, i) && candidates[i] != "" ==> r == Some(candidates[i])
    ensures "" !in candidates ==> (r.None? <==> !AnyColumn(cols, candidates))
  {
    match FindCandidate(cols, candidates)
    case None => None
    case Some(i) => if candidates[i] == "" then None else Some(candidates[i])
  }

  // ---------------------------------------------------------------------------------------
  // resolveCols: the concept -> column mapping

  const DateCandidates: seq<string> := ["date", "fecha", "appointment_date", "fecha_cita"]
  const TimeCandidates: seq<string> := ["time", "hora", "appointment_time", "hora_cita"]
  const TypeCandidates: seq<string> := ["type", "tipo", "appointment_type", "tipo_cita"]
  const StatusCandidates: seq<string> := ["status", "estado", "state", "estatus"]
  const NameCandidates: seq<string> := ["nombre", "name", "full_name"]
  const SpecialtyCandidates: seq<string> := ["especialidad", "specialty"]

  /** The physical column chosen for each concept. */
  datatype ColumnMapping = ColumnMapping(
    dateCol: string,
    timeCol: string,
    typeCol: string,
    statusCol: string,
    pNameCol: string,
    dNameCol: string,
    dSpecCol: Option<string>)

  /** The required concepts whose candidate lists find no column, in the order date, time,
      type, status. */
  ghost function MissingConcepts(apptCols: seq<string>): seq<string>
  {
    (if AnyColumn(apptCols, DateCandidates) then [] else ["date"])
    + (if AnyColumn(apptCols, TimeCandidates) then [] else ["time"])
    + (if AnyColumn(apptCols, TypeCandidates) then [] else ["type"])
    + (if AnyColumn(apptCols, StatusCandidates) then [] else ["status"])
  }

  /** `[[k, v], ...].filter(([_, v]) => !v).map(([k]) => k)` */
  function Unresolved(probes: seq<(string, Option<string>)>): (miss: seq<string>)
    ensures |miss| <= |probes|
    ensures forall k :: k in miss ==> exists i :: 0 <= i < |probes| && probes[i].0 == k && probes[i].1.None?
  {
    if probes == [] then []
    else (if probes[0].1.None? then [probes[0].0] else []) + Unresolved(probes[1..])
  }

  function MissingMessage(miss: seq<string>): string
  {
    "appointments: faltan columnas (" + Join(miss, ", ") + "). Revisa tu esquema."
  }

  /** The chosen column is the earliest candidate that names a column of the table. */
  ghost predicate Chosen(cols: seq<string>, candidates: seq<string>, col: string)
  {
    exists i :: FirstHitAt(cols, candidates, i) && candidates[i] == col
  }

  /** What a successful resolution promises about each concept. */
  ghost predicate MappingFits(m: ColumnMapping, apptCols: seq<string>, patientCols: seq<string>, doctorCols: seq<string>)
  {
    && Chosen(apptCols, DateCandidates, m.dateCol)
    && Chosen(apptCols, TimeCandidates, m.timeCol)
    && Chosen(apptCols, TypeCandidates, m.typeCol)
    && Chosen(apptCols, StatusCandidates, m.statusCol)
    && (if AnyColumn(patientCols, NameCandidates) then Chosen(patientCols, NameCandidates, m.pNameCol) else m.pNameCol == "id")
    && (if AnyColumn(doctorCols, NameCandidates) then Chosen(doctorCols, NameCandidates, m.dNameCol) else m.dNameCol == "id")
    && (match m.dSpecCol
        case None => !AnyColumn(doctorCols, SpecialtyCandidates)
        case Some(c) => Chosen(doctorCols, SpecialtyCandidates, c))
  }

  /** A required concept's pick fails exactly when none of its candidates names a column. */
  lemma RequiredPicks(apptCols: seq<string>)
    ensures Pick(apptCols, DateCandidates).None? <==> !AnyColumn(apptCols, DateCandidates)
    ensures Pick(apptCols, TimeCandidates).None? <==> !AnyColumn(apptCols, TimeCandidates)
    ensures Pick(apptCols, TypeCandidates).None? <==> !AnyColumn(apptCols, TypeCandidates)
    ensures Pick(apptCols, StatusCandidates).None? <==> !AnyColumn(apptCols, StatusCandidates)
  {
    assert "" !in DateCandidates && "" !in TimeCandidates;
    assert "" !in TypeCandidates && "" !in StatusCandidates;
  }

  lemma UnresolvedOfFour(a: (string, Option<string>), b: (string, Option<string>), c: (string, Option<string>), d: (string, Option<string>))
    ensures Unresolved([a, b, c, d]) == (if a.1.None? then [a.0] else []) + (if b.1.None? then [b.0] else [])
                                        + (if c.1.None? then [c.0] else []) + (if d.1.None? then [d.0] else [])
  {
    var pa, pb, pc, pd := (if a.1.None? then [a.0] else []), (if b.1.None? then [b.0] else []),
                          (if c.1.None? then [c.0] else []), (if d.1.None? then [d.0] else []);
    assert [d][1..] == [];
    assert Unresolved([d]) == pd;
    assert [c, d][1..] == [d];
    assert Unresolved([c, d]) == pc + pd;
    assert [b, c, d][1..] == [c, d];
    assert Unresolved([b, c, d]) == pb + (pc + pd);
    assert [a, b, c, d][1..] == [b, c, d];
    assert Unresolved([a, b, c, d]) == pa + (pb + (pc + pd));
  }

  /** The display-name column: the first name candidate, or the row id when there is none. */
  function NameColumn(cols: seq<string>): (col: string)
    ensures AnyColumn(cols, NameCandidates) ==> Chosen(cols, NameCandidates, col)
    ensures !AnyColumn(cols, NameCandidates) ==> col == "id"
  {
    var found := Pick(cols, NameCandidates);
    assert "" !in NameCandidates;
    if found.Some? then found.value else "id"
  }

  /** The specialty column, absent when no candidate names one. */
  function SpecialtyColumn(cols: seq<string>): (col: Option<string>)
    ensures col.None? <==> !AnyColumn(cols, SpecialtyCandidates)
    ensures col.Some? ==> Chosen(cols, SpecialtyCandidates, col.value)
  {
    assert "" !in SpecialtyCandidates;
    Pick(cols, SpecialtyCandidates)
  }

  /** One resolution of the three tables' columns (the body of `resolveCols` after the cache test). */
  function ResolveFrom(apptCols: seq<string>, patientCols: seq<string>, doctorCols: seq<string>): (r: Result<ColumnMapping, string>)
    ensures r.Failure? <==> MissingConcepts(apptCols) != []
    ensures r.Failure? ==> r.error == MissingMessage(MissingConcepts(apptCols))
    ensures r.Success? ==> MappingFits(r.value, apptCols, patientCols, doctorCols)
  {
    var dateCol := Pick(apptCols, DateCandidates);
    var timeCol := Pick(apptCols, TimeCandidates);
    var typeCol := Pick(apptCols, TypeCandidates);
    var statusCol := Pick(apptCols, StatusCandidates);
    RequiredPicks(apptCols);
    if dateCol.None? || timeCol.None? || typeCol.None? || statusCol.None? then
      var miss := Unresolved([("date", dateCol), ("time", timeCol), ("type", typeCol), ("status", statusCol)]);
      UnresolvedOfFour(("date", dateCol), ("time", timeCol), ("type", typeCol), ("status", statusCol));
      Failure(MissingMessage(miss))
    else
      Success(ColumnMapping(
        dateCol.value, timeCol.value, typeCol.value, statusCol.value,
        NameColumn(patientCols), NameColumn(doctorCols), SpecialtyColumn(doctorCols)))
  }

  lemma LowerOfLowercase(s: string)
    requires forall i :: 0 <= i < |s| ==> !('A' <= s[i] <= 'Z')
    ensures Lower(s) == s
  {
  }

  lemma PickAt(cols: seq<string>, candidates: seq<string>, i: nat)
    requires i < |candidates| && candidates[i] != "" && HasColumn(cols, candidates[i])
    requires forall j :: 0 <= j < i ==> !HasColumn(cols, candidates[j])
    ensures Pick(cols, candidates) == Some(candidates[i])
  {
    assert FirstHitAt(cols, candidates, i);
  }

  const SpanishAppointmentColumns: seq<string> := ["id", "patient_id", "doctor_id", "fecha", "hora", "tipo", "estado"]

  lemma SpanishColumnsLowercase()
    ensures LowerAll(SpanishAppointmentColumns) == SpanishAppointmentColumns
  {
    LowerOfLowercase("id");
    LowerOfLowercase("patient_id");
    LowerOfLowercase("doctor_id");
    LowerOfLowercase("fecha");
    LowerOfLowercase("hora");
    LowerOfLowercase("tipo");
    LowerOfLowercase("estado");
  }

  /** In a Spanish schema the English candidate, first in each list, is absent and the Spanish
      one, second, is chosen. */
  lemma SpanishRequiredPicks()
    ensures Pick(SpanishAppointmentColumns, DateCandidates) == Some("fecha")
    ensures Pick(SpanishAppointmentColumns, TimeCandidates) == Some("hora")
    ensures Pick(SpanishAppointmentColumns, TypeCandidates) == Some("tipo")
    ensures Pick(SpanishAppointmentColumns, StatusCandidates) == Some("estado")
  {
    SpanishDatePick();
    SpanishTimePick();
    SpanishTypePick();
    SpanishStatusPick();
  }

  lemma SpanishDatePick()
    ensures Pick(SpanishAppointmentColumns, DateCandidates) == Some("fecha")
  {
    SpanishColumnsLowercase();
    RequiredLiteralsLowercase();
    PickAt(SpanishAppointmentColumns, DateCandidates, 1);
  }

  lemma SpanishTimePick()
    ensures Pick(SpanishAppointmentColumns, TimeCandidates) == Some("hora")
  {
    SpanishColumnsLowercase();
    RequiredLiteralsLowercase();
    PickAt(SpanishAppointmentColumns, TimeCandidates, 1);
  }

  lemma SpanishTypePick()
    ensures Pick(SpanishAppointmentColumns, TypeCandidates) == Some("tipo")
  {
    SpanishColumnsLowercase();
    RequiredLiteralsLowercase();
    PickAt(SpanishAppointmentColumns, TypeCandidates, 1);
  }

  lemma SpanishStatusPick()
    ensures Pick(SpanishAppointmentColumns, StatusCandidates) == Some("estado")
  {
    SpanishColumnsLowercase();
    RequiredLiteralsLowercase();
    PickAt(SpanishAppointmentColumns, StatusCandidates, 1);
  }

  lemma RequiredLiteralsLowercase()
    ensures Lower("date") == "date" && Lower("fecha") == "fecha"
    ensures Lower("time") == "time" && Lower("hora") == "hora"
    ensures Lower("type") == "type" && Lower("tipo") == "tipo"
    ensures Lower("status") == "status" && Lower("estado") == "estado"
  {
    LowerOfLowercase("date");
    LowerOfLowercase("fecha");
    LowerOfLowercase("time");
    LowerOfLowercase("hora");
    LowerOfLowercase("type");
    LowerOfLowercase("tipo");
    LowerOfLowercase("status");
    LowerOfLowercase("estado");
  }

  lemma NameLiteralsLowercase()
    ensures Lower("id") == "id" && Lower("nombre") == "nombre" && Lower("especialidad") == "especialidad"
  {
    LowerOfLowercase("id");
    LowerOfLowercase("nombre");
    LowerOfLowercase("especialidad");
  }

  /** When every required concept is picked, resolution succeeds with those picks. */
  lemma ResolvedFromPicks(apptCols: seq<string>, patientCols: seq<string>, doctorCols: seq<string>)
    requires Pick(apptCols, DateCandidates).Some? && Pick(apptCols, TimeCandidates).Some?
    requires Pick(apptCols, TypeCandidates).Some? && Pick(apptCols, StatusCandidates).Some?
    ensures ResolveFrom(apptCols, patientCols, doctorCols) == Success(ColumnMapping(
      Pick(apptCols, DateCandidates).value, Pick(apptCols, TimeCandidates).value,
      Pick(apptCols, TypeCandidates).value, Pick(apptCols, StatusCandidates).value,
      NameColumn(patientCols), NameColumn(doctorCols), SpecialtyColumn(doctorCols)))
  {
  }

  lemma SpanishNamePicks(pcols: seq<string>, dcols: seq<string>)
    requires pcols == ["id", "nombre"] && dcols == ["id", "nombre", "especialidad"]
    ensures NameColumn(pcols) == "nombre"
    ensures NameColumn(dcols) == "nombre"
    ensures SpecialtyColumn(dcols) == Some("especialidad")
  {
    NameLiteralsLowercase();
    assert LowerAll(pcols) == pcols;
    assert LowerAll(dcols) == dcols;
    PickAt(pcols, NameCandidates, 0);
    PickAt(dcols, NameCandidates, 0);
    PickAt(dcols, SpecialtyCandidates, 0);
  }

  /** A schema in Spanish resolves every concept to its Spanish column. */
  lemma SpanishSchemaResolves(cols: seq<string>, pcols: seq<string>, dcols: seq<string>)
    requires cols == SpanishAppointmentColumns
    requires pcols == ["id", "nombre"] && dcols == ["id", "nombre", "especialidad"]
    ensures ResolveFrom(cols, pcols, dcols)
            == Success(ColumnMapping("fecha", "hora", "tipo", "estado", "nombre", "nombre", Some("especialidad")))
  {
    SpanishRequiredPicks();
    SpanishNamePicks(pcols, dcols);
    ResolvedFromPicks(cols, pcols, dcols);
  }

  /** With one concept missing, the message names just that concept. */
  lemma MissingMessageOfOne(concept: string)
    ensures MissingMessage([concept]) == "appointments: faltan columnas (" + concept + "). Revisa tu esquema."
  {
  }

  lemma StatusLiteralsLowercase()
    ensures Lower("state") == "state" && Lower("estatus") == "estatus"
  {
    LowerOfLowercase("state");
    LowerOfLowercase("estatus");
  }

  lemma EnglishRequiredPicks(cols: seq<string>)
    requires cols == ["id", "date", "time", "type"]
    ensures Pick(cols, DateCandidates).Some? && Pick(cols, TimeCandidates).Some? && Pick(cols, TypeCandidates).Some?
  {
    RequiredLiteralsLowercase();
    LowerOfLowercase("id");
    assert LowerAll(cols) == cols;
    PickAt(cols, DateCandidates, 0);
    PickAt(cols, TimeCandidates, 0);
    PickAt(cols, TypeCandidates, 0);
  }

  lemma EnglishWithoutStatus(cols: seq<string>)
    requires cols == ["id", "date", "time", "type"]
    ensures !AnyColumn(cols, StatusCandidates)
  {
    RequiredLiteralsLowercase();
    StatusLiteralsLowercase();
    LowerOfLowercase("id");
    assert LowerAll(cols) == cols;
    assert !HasColumn(cols, "status") && !HasColumn(cols, "estado");
    assert !HasColumn(cols, "state") && !HasColumn(cols, "estatus");
  }

  /** A table without a status column is rejected, naming that concept only. */
  lemma MissingStatusIsReported(cols: seq<string>, patientCols: seq<string>, doctorCols: seq<string>)
    requires cols == ["id", "date", "time", "type"]
    ensures ResolveFrom(cols, patientCols, doctorCols)
            == Failure("appointments: faltan columnas (" + "status" + "). Revisa tu esquema.")
  {
    EnglishRequiredPicks(cols);
    EnglishWithoutStatus(cols);
    assert MissingConcepts(cols) == ["status"];
    MissingMessageOfOne("status");
  }

  // ---------------------------------------------------------------------------------------
  // normalizePayload

  /** The canonical record: the six mutable fields of an appointment. */
  datatype Payload = Payload(patientId: Value, doctorId: Value, date: Value, time: Value, kind: Value, status: Value)

  const PatientAliases: seq<string> := ["patient_id", "paciente_id", "pacienteId", "patientId"]
  const DoctorAliases: seq<string> := ["doctor_id", "medico_id", "medicoId", "doctorId"]
  const DateAliases: seq<string> := ["fecha", "date"]
  const TimeAliases: seq<string> := ["hora", "time"]
  const TypeAliases: seq<string> := ["tipo", "type"]
  const StatusAliases: seq<string> := ["estado", "status"]

  /** The value of the first alias that is neither null nor undefined; when every alias is
      nullish, the value of the last one. */
  function FirstDefined(data: Object, aliases: seq<string>): (v: Value)
    requires |aliases| >= 1
    ensures forall i :: 0 <= i < |aliases| && !Nullish(Get(data, aliases[i]))
                        && (forall j :: 0 <= j < i ==> Nullish(Get(data, aliases[j])))
                        ==> v == Get(data, aliases[i])
    ensures (forall i :: 0 <= i < |aliases| ==> Nullish(Get(data, aliases[i]))) ==> v == Get(data, aliases[|aliases| - 1])
  {
    if |aliases| == 1 || !Nullish(Get(data, aliases[0])) then Get(data, aliases[0])
    else FirstDefined(data, aliases[1..])
  }

  lemma CoalesceChainOfTwo(data: Object, aliases: seq<string>)
    requires |aliases| == 2
    ensures Coalesce(Get(data, aliases[0]), Get(data, aliases[1])) == FirstDefined(data, aliases)
  {
    assert aliases[1..] == [aliases[1]];
  }

  lemma CoalesceChainOfFour(data: Object, aliases: seq<string>)
    requires |aliases| == 4
    ensures Coalesce(Coalesce(Coalesce(Get(data, aliases[0]), Get(data, aliases[1])), Get(data, aliases[2])), Get(data, aliases[3]))
            == FirstDefined(data, aliases)
  {
    assert aliases[1..][1..][1..] == [aliases[3]];
    assert aliases[1..][1..][0] == aliases[2];
  }

  /** `normalizePayload(data)`: every canonical field holds the value of one of its aliases, and
      is undefined only when every alias is null or missing. */
  function Normalize(data: Object): (p: Payload)
    ensures p.patientId in {Get(data, "patient_id"), Get(data, "paciente_id"), Get(data, "pacienteId"), Get(data, "patientId")}
    ensures p.doctorId in {Get(data, "doctor_id"), Get(data, "medico_id"), Get(data, "medicoId"), Get(data, "doctorId")}
    ensures p.date in {Get(data, "fecha"), Get(data, "date")}
    ensures p.time in {Get(data, "hora"), Get(data, "time")}
    ensures p.kind in {Get(data, "tipo"), Get(data, "type")}
    ensures p.status in {Get(data, "estado"), Get(data, "status")}
    ensures !Nullish(Get(data, "patient_id")) ==> p.patientId == Get(data, "patient_id")
    ensures !Nullish(Get(data, "doctor_id")) ==> p.doctorId == Get(data, "doctor_id")
  {
    Payload(
      Coalesce(Coalesce(Coalesce(Get(data, "patient_id"), Get(data, "paciente_id")), Get(data, "pacienteId")), Get(data, "patientId")),
      Coalesce(Coalesce(Coalesce(Get(data, "doctor_id"), Get(data, "medico_id")), Get(data, "medicoId")), Get(data, "doctorId")),
      Coalesce(Get(data, "fecha"), Get(data, "date")),
      Coalesce(Get(data, "hora"), Get(data, "time")),
      Coalesce(Get(data, "tipo"), Get(data, "type")),
      Coalesce(Get(data, "estado"), Get(data, "status")))
  }

  /** Every canonical field takes the first alias whose value is defined, in the fixed order. */
  lemma NormalizeTakesFirstDefined(data: Object)
    ensures Normalize(data) == Payload(
      FirstDefined(data, PatientAliases), FirstDefined(data, DoctorAliases),
      FirstDefined(data, DateAliases), FirstDefined(data, TimeAliases),
      FirstDefined(data, TypeAliases), FirstDefined(data, StatusAliases))
  {
    CoalesceChainOfFour(data, PatientAliases);
    CoalesceChainOfFour(data, DoctorAliases);
    CoalesceChainOfTwo(data, DateAliases);
    CoalesceChainOfTwo(data, TimeAliases);
    CoalesceChainOfTwo(data, TypeAliases);
    CoalesceChainOfTwo(data, StatusAliases);
  }

  /** What an INT column keeps of a bound parameter: a number as is, a string of decimal digits
      (what a form's select delivers) as its number, `undefined` as NULL. Any other value is
      kept as bound and never joins. */
  function IntColumn(v: Value): (c: Value)
    ensures v.Num? ==> c == v
    ensures Nullish(v) ==> c == Null
    ensures v.Str? && DigitString(v.s) ==> c.Num? && c.n >= 0
  {
    match v
    case Undefined => Null
    case Str(s) => if DigitString(s) then Num(ParseNat(s)) else v
    case _ => v
  }

  /** An id sent as its decimal string is stored as that id, so it joins exactly as the
      number would. */
  lemma StringIdJoinsLikeNumber(n: nat)
    ensures IntColumn(Str(NatToString(n))) == IntColumn(Num(n)) == Num(n)
    ensures ReferencedId(IntColumn(Str(NatToString(n)))) == Some(n)
  {
    ParseNatToString(n);
  }

  /** The row one canonical record becomes: the two ids through their INT columns, the other
      fields as bound parameters. */
  function Stored(p: Payload): (r: Payload)
    ensures !r.patientId.Undefined? && !r.doctorId.Undefined? && !r.date.Undefined?
            && !r.time.Undefined? && !r.kind.Undefined? && !r.status.Undefined?
    ensures r.patientId == IntColumn(p.patientId) && r.doctorId == IntColumn(p.doctorId)
    ensures Nullish(p.date) ==> r.date == Null
    ensures !p.date.Undefined? ==> r.date == p.date
    ensures !p.time.Undefined? ==> r.time == p.time
    ensures !p.kind.Undefined? ==> r.kind == p.kind
    ensures !p.status.Undefined? ==> r.status == p.status
  {
    Payload(IntColumn(p.patientId), IntColumn(p.doctorId), SqlParam(p.date), SqlParam(p.time), SqlParam(p.kind), SqlParam(p.status))
  }

  /** For date, time, type and status the Spanish key wins whenever it holds a value; the
      English key is consulted only when the Spanish one is null or missing. */
  lemma SpanishKeyWins(data: Object)
    ensures !Nullish(Get(data, "fecha")) ==> Normalize(data).date == Get(data, "fecha")
    ensures !Nullish(Get(data, "hora")) ==> Normalize(data).time == Get(data, "hora")
    ensures !Nullish(Get(data, "tipo")) ==> Normalize(data).kind == Get(data, "tipo")
    ensures !Nullish(Get(data, "estado")) ==> Normalize(data).status == Get(data, "estado")
    ensures Nullish(Get(data, "fecha")) ==> Normalize(data).date == Get(data, "date")
    ensures Nullish(Get(data, "hora")) ==> Normalize(data).time == Get(data, "time")
    ensures Nullish(Get(data, "tipo")) ==> Normalize(data).kind == Get(data, "type")
    ensures Nullish(Get(data, "estado")) ==> Normalize(data).status == Get(data, "status")
  {
  }

  // ---------------------------------------------------------------------------------------
  // The repository over the in-memory database

  /** One row of the `all` / `findById` SELECT. */
  datatype JoinedRow = JoinedRow(
    id: int,
    patientId: Value,
    doctorId: Value,
    fecha: Value,
    hora: Value,
    tipo: Value,
    estado: Value,
    paciente: Value,
    doctor: Value,
    especialidad: Value)

  /** `p.id = a.patient_id` on a stored INT cell: the number joins to the row with that id; NULL
      never joins. */
  function ReferencedId(v: Value): Option<int>
  {
    if v.Num? then Some(v.n) else None
  }

  /** Reads column `col` of the row with id `id`; column names are case-insensitive and a
      cell the row does not hold is NULL. */
  function Cell(id: int, row: Object, col: string): Value
  {
    if Lower(col) == "id" then Num(id) else SqlParam(Get(row, Lower(col)))
  }

  /** Newest-first order of `ORDER BY date DESC, time DESC`: `a` may follow `b`. */
  predicate RowLe(a: JoinedRow, b: JoinedRow)
  {
    SqlOrder.KeyLe(a.fecha, a.hora, b.fecha, b.hora)
  }

  ghost predicate NewestFirst(rows: seq<JoinedRow>)
  {
    forall i, j {:trigger RowLe(rows[j], rows[i])} :: 0 <= i < j < |rows| ==> RowLe(rows[j], rows[i])
  }

  lemma RowLeReflexive(a: JoinedRow)
    ensures RowLe(a, a)
  {
    SqlOrder.CmpAntisymmetric(a.fecha, a.fecha);
    SqlOrder.CmpAntisymmetric(a.hora, a.hora);
  }

  /** Every finite set of rows has a newest one, so ORDER BY can always emit a next row. */
  lemma {:induction false} Newest(rows: map<int, JoinedRow>, s: set<int>) returns (k: int)
    requires s != {} && s <= rows.Keys
    ensures k in s && forall j {:trigger RowLe(rows[j], rows[k])} :: j in s ==> RowLe(rows[j], rows[k])
    decreases s
  {
    assert exists x :: x in s by {
      if forall x :: x !in s {
        assert false;
      }
    }
    var x :| x in s;
    if s == {x} {
      RowLeReflexive(rows[x]);
      k := x;
    } else {
      k := Newest(rows, s - {x});
      if !RowLe(rows[x], rows[k]) {
        SqlOrder.KeyLeTotal(rows[x].fecha, rows[x].hora, rows[k].fecha, rows[k].hora);
        RowLeReflexive(rows[x]);
        forall j | j in s
          ensures RowLe(rows[j], rows[x])
        {
          if j != x {
            assert RowLe(rows[j], rows[k]);
            SqlOrder.KeyLeTransitive(rows[j].fecha, rows[j].hora, rows[k].fecha, rows[k].hora, rows[x].fecha, rows[x].hora);
          }
        }
        k := x;
      }
    }
  }

  /** A row no newer than every row emitted so far may be emitted next. */
  lemma AppendOldest(rows: seq<JoinedRow>, next: JoinedRow)
    requires NewestFirst(rows)
    requires forall i {:trigger RowLe(next, rows[i])} :: 0 <= i < |rows| ==> RowLe(next, rows[i])
    ensures NewestFirst(rows + [next])
  {
    var all := rows + [next];
    forall i, j | 0 <= i < j < |all|
      ensures RowLe(all[j], all[i])
    {
      if j == |rows| {
        assert all[j] == next && all[i] == rows[i];
      } else {
        assert all[j] == rows[j] && all[i] == rows[i];
      }
    }
  }

  /** The ids of a result set. */
  function Ids(rows: seq<JoinedRow>): (ids: set<int>)
    ensures forall i :: 0 <= i < |rows| ==> rows[i].id in ids
    ensures forall id :: id in ids ==> exists i :: 0 <= i < |rows| && rows[i].id == id
  {
    if rows == [] then {} else Ids(rows[..|rows| - 1]) + {rows[|rows| - 1].id}
  }

  /** The store's `ORDER BY date DESC, time DESC` over the rows that survived the joins: every
      row exactly once, newest first (rows whose date and time tie may come in any order). */
  method OrderNewestFirst(joined: map<int, JoinedRow>) returns (rows: seq<JoinedRow>)
    requires forall id :: id in joined ==> joined[id].id == id
    ensures forall i :: 0 <= i < |rows| ==> rows[i].id in joined && joined[rows[i].id] == rows[i]
    ensures forall i, j :: 0 <= i < j < |rows| ==> rows[i].id != rows[j].id
    ensures Ids(rows) == joined.Keys
    ensures NewestFirst(rows)
  {
    var remaining := joined.Keys;
    rows := [];
    while remaining != {}
      invariant remaining !! Ids(rows) && remaining + Ids(rows) == joined.Keys
      invariant forall i :: 0 <= i < |rows| ==> joined[rows[i].id] == rows[i]
      invariant forall i, j :: 0 <= i < j < |rows| ==> rows[i].id != rows[j].id
      invariant NewestFirst(rows)
      invariant forall i, id {:trigger RowLe(joined[id], rows[i])} :: 0 <= i < |rows| && id in remaining ==> RowLe(joined[id], rows[i])
      decreases remaining
    {
      ghost var newest := Newest(joined, remaining);
      var k :| k in remaining && forall j {:trigger RowLe(joined[j], joined[k])} :: j in remaining ==> RowLe(joined[j], joined[k]);
      AppendOldest(rows, joined[k]);
      var next := rows + [joined[k]];
      assert next[..|rows|] == rows;
      assert Ids(next) == Ids(rows) + {k};
      forall i, j | 0 <= i < j < |next|
        ensures next[i].id != next[j].id
      {
        if j == |rows| {
          assert next[i].id in Ids(rows);
        } else {
          assert next[i] == rows[i] && next[j] == rows[j];
        }
      }
      forall i | 0 <= i < |next|
        ensures joined[next[i].id] == next[i]
      {
        if i < |rows| {
          assert next[i] == rows[i];
        }
      }
      rows := next;
      remaining := remaining - {k};
    }
  }

  class AppointmentStore {
    /** `SHOW COLUMNS` of the three tables; the schema does not change while the process runs. */
    const apptColumns: seq<string>
    const patientColumns: seq<string>
    const doctorColumns: seq<string>
    /** What resolving this schema yields: the mapping, or the configuration error. */
    const resolution: Result<ColumnMapping, string>
    var patients: map<int, Object>
    var doctors: map<int, Object>
    var appointments: map<int, Payload>
    /** The next AUTO_INCREMENT id. */
    var nextId: int
    /** `APPT_COLS` */
    var cache: Option<ColumnMapping>
    /** How many `SHOW COLUMNS` statements have been sent. */
    var metadataQueries: nat

    ghost predicate Valid()
      reads this
    {
      && (forall id :: id in appointments ==> id < nextId)
      && (cache.Some? ==> resolution == Success(cache.value))
    }

    /** The mapping every operation works with, or the configuration error. */
    function Resolution(): Result<ColumnMapping, string>
    {
      resolution
    }

    constructor (apptColumns: seq<string>, patientColumns: seq<string>, doctorColumns: seq<string>,
                 patients: map<int, Object>, doctors: map<int, Object>,
                 initial: map<int, Payload>, next: int)
      requires forall id :: id in initial ==> id < next
      ensures Valid()
      ensures this.apptColumns == apptColumns && this.patientColumns == patientColumns && this.doctorColumns == doctorColumns
      ensures resolution == ResolveFrom(apptColumns, patientColumns, doctorColumns)
      ensures this.patients == patients && this.doctors == doctors
      ensures appointments == initial && nextId == next && cache == None && metadataQueries == 0
    {
      this.apptColumns := apptColumns;
      this.patientColumns := patientColumns;
      this.doctorColumns := doctorColumns;
      this.resolution := ResolveFrom(apptColumns, patientColumns, doctorColumns);
      this.patients := patients;
      this.doctors := doctors;
      appointments := initial;
      nextId := next;
      cache := None;
      metadataQueries := 0;
    }

    /** The joined row of appointment `id`, if the appointment and both its patient and its
        doctor exist. */
    function JoinedRowOf(id: int, m: ColumnMapping): (r: Option<JoinedRow>)
      reads this
      ensures r.Some? <==> id in appointments
                           && ReferencedId(appointments[id].patientId).Some? && ReferencedId(appointments[id].patientId).value in patients
                           && ReferencedId(appointments[id].doctorId).Some? && ReferencedId(appointments[id].doctorId).value in doctors
      ensures r.Some? ==> r.value.id == id
    {
      if id !in appointments then None
      else
        var a := appointments[id];
        match (ReferencedId(a.patientId), ReferencedId(a.doctorId))
        case (Some(p), Some(d)) =>
          if p in patients && d in doctors then
            Some(JoinedRow(id, a.patientId, a.doctorId, a.date, a.time, a.kind, a.status,
                           Cell(p, patients[p], m.pNameCol),
                           Cell(d, doctors[d], m.dNameCol),
                           match m.dSpecCol case None => Null case Some(c) => Cell(d, doctors[d], c)))
          else None
        case _ => None
    }

    /** `resolveCols()`: the cached mapping when there is one; otherwise reads the three tables'
        columns and caches the mapping only if resolution succeeds. */
    method ResolveCols() returns (r: Result<ColumnMapping, string>)
      requires Valid()
      modifies this`cache, this`metadataQueries
      ensures Valid()
      ensures r == Resolution()
      ensures old(cache).Some? ==> r == Success(old(cache).value) && cache == old(cache) && metadataQueries == old(metadataQueries)
      ensures old(cache).None? ==> metadataQueries == old(metadataQueries) + 3
      ensures old(cache).None? ==> cache == (if r.Success? then Some(r.value) else None)
    {
      if cache.Some? {
        return Success(cache.value);
      }
      metadataQueries := metadataQueries + 3;
      r := resolution;
      if r.Success? {
        cache := Some(r.value);
      }
    }

    /** `all()`: every appointment whose patient and doctor exist, each once, newest first. */
    method All() returns (r: Result<seq<JoinedRow>, string>)
      requires Valid()
      modifies this`cache, this`metadataQueries
      ensures Valid()
      ensures old(cache).Some? ==> cache == old(cache) && metadataQueries == old(metadataQueries)
      ensures old(cache).None? ==> metadataQueries == old(metadataQueries) + 3
                                   && cache == (if Resolution().Success? then Some(Resolution().value) else None)
      ensures r.Failure? <==> Resolution().Failure?
      ensures r.Failure? ==> r.error == Resolution().error
      ensures r.Success? ==> var m := Resolution().value;
                             && (forall i :: 0 <= i < |r.value| ==> JoinedRowOf(r.value[i].id, m) == Some(r.value[i]))
                             && (forall i, j :: 0 <= i < j < |r.value| ==> r.value[i].id != r.value[j].id)
                             && (forall id :: JoinedRowOf(id, m).Some? ==> id in Ids(r.value))
                             && NewestFirst(r.value)
    {
      var cols := ResolveCols();
      if cols.Failure? {
        return Failure(cols.error);
      }
      var m := cols.value;
      var joined := map id | id in appointments && JoinedRowOf(id, m).Some? :: JoinedRowOf(id, m).value;
      var rows := OrderNewestFirst(joined);
      r := Success(rows);
    }

    /** `findById(id)`: the joined row, or null when there is none. */
    method FindById(id: int) returns (r: Result<Option<JoinedRow>, string>)
      requires Valid()
      modifies this`cache, this`metadataQueries
      ensures Valid()
      ensures old(cache).Some? ==> cache == old(cache) && metadataQueries == old(metadataQueries)
      ensures old(cache).None? ==> metadataQueries == old(metadataQueries) + 3
                                   && cache == (if Resolution().Success? then Some(Resolution().value) else None)
      ensures r.Failure? <==> Resolution().Failure?
      ensures r.Failure? ==> r.error == Resolution().error
      ensures r.Success? ==> r.value == JoinedRowOf(id, Resolution().value)
    {
      var cols := ResolveCols();
      if cols.Failure? {
        return Failure(cols.error);
      }
      r := Success(JoinedRowOf(id, cols.value));
    }

    /** `create(data)`: inserts exactly the normalised six fields under a fresh id and returns
        that id's joined row. */
    method Create(data: Object) returns (r: Result<Option<JoinedRow>, string>)
      requires Valid()
      modifies this`appointments, this`nextId, this`cache, this`metadataQueries
      ensures Valid()
      ensures old(cache).Some? ==> cache == old(cache) && metadataQueries == old(metadataQueries)
      ensures old(cache).None? ==> metadataQueries == old(metadataQueries) + 3
                                   && cache == (if Resolution().Success? then Some(Resolution().value) else None)
      ensures Resolution().Failure? ==> r == Failure(Resolution().error) && appointments == old(appointments) && nextId == old(nextId)
      ensures Resolution().Success? ==>
                && old(nextId) !in old(appointments)
                && appointments == old(appointments)[old(nextId) := Stored(Normalize(data))]
                && nextId == old(nextId) + 1
                && r == Success(JoinedRowOf(old(nextId), Resolution().value))
    {
      var cols := ResolveCols();
      if cols.Failure? {
        return Failure(cols.error);
      }
      var p := Normalize(data);
      var id := nextId;
      appointments := appointments[id := Stored(p)];
      nextId := nextId + 1;
      r := FindById(id);
    }

    /** `update(id, data)`: overwrites all six fields of row `id` (an omitted field becomes NULL)
        and returns its joined row; an unknown id changes nothing. */
    method Update(id: int, data: Object) returns (r: Result<Option<JoinedRow>, string>)
      requires Valid()
      modifies this`appointments, this`cache, this`metadataQueries
      ensures Valid()
      ensures old(cache).Some? ==> cache == old(cache) && metadataQueries == old(metadataQueries)
      ensures old(cache).None? ==> metadataQueries == old(metadataQueries) + 3
                                   && cache == (if Resolution().Success? then Some(Resolution().value) else None)
      ensures Resolution().Failure? ==> r == Failure(Resolution().error) && appointments == old(appointments)
      ensures Resolution().Success? ==>
                && appointments == (if id in old(appointments) then old(appointments)[id := Stored(Normalize(data))] else old(appointments))
                && r == Success(JoinedRowOf(id, Resolution().value))
    {
      var cols := ResolveCols();
      if cols.Failure? {
        return Failure(cols.error);
      }
      var p := Normalize(data);
      if id in appointments {
        appointments := appointments[id := Stored(p)];
      }
      r := FindById(id);
    }

    /** `remove(id)`: deletes the row if there is one and acknowledges either way; it does not
        consult the column mapping. */
    method Remove(id: int) returns (r: Object)
      requires Valid()
      modifies this`appointments
      ensures Valid()
      ensures r == map["ok" := Bool(true)]
      ensures appointments == old(appointments) - {id}
    {
      appointments := appointments - {id};
      r := map["ok" := Bool(true)];
    }
  }

  /** The mapping is discovered once per process: when resolution succeeds, two listings in a
      row send one round of `SHOW COLUMNS` in total (none if the mapping was already cached); a
      failure is not cached, so each listing sends its own round. Both fail or both succeed. */
  method ListTwice(store: AppointmentStore) returns (first: Result<seq<JoinedRow>, string>, second: Result<seq<JoinedRow>, string>)
    requires store.Valid()
    modifies store`cache, store`metadataQueries
    ensures store.Valid()
    ensures first.Success? <==> second.Success?
    ensures old(store.cache).Some? ==> store.metadataQueries == old(store.metadataQueries)
    ensures old(store.cache).None? ==> store.metadataQueries == old(store.metadataQueries) + (if first.Success? then 3 else 6)
  {
    first := store.All();
    second := store.All();
  }

  /** An update whose body omits a field stores NULL for it rather than keeping the old value. */
  lemma OmittedFieldBecomesNull(data: Object)
    requires forall k :: k in StatusAliases ==> k !in data
    ensures Stored(Normalize(data)).status == Null
  {
  }
}
