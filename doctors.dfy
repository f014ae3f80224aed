/**
 * The doctors repository: list by id descending, look up one doctor, create with required-field
 * validation and destructuring defaults, overwrite without validation, and delete.
 */
module Doctors {
  import opened Wrappers
  import opened Js

  /** The six columns of a doctors row, as the driver stores them. */
  datatype Doctor = Doctor(
    nombre: Value,
    especialidad: Value,
    correo: Value,
    telefono: Value,
    horario: Value,
    estado: Value)

  /** A row as `SELECT id, nombre, ...` returns it. */
  datatype DoctorRow = DoctorRow(id: int, doctor: Doctor)

  const MissingFields: string := "nombre y especialidad son obligatorios"

  /** A destructured key with a default: the default applies only when the key reads as
      `undefined`; an explicit `null` is kept. */
  function WithDefault(data: Object, k: string, default: Value): Value
  {
    var v := Get(data, k);
    if v.Undefined? then default else v
  }

  /** The six values bound to the `INSERT`/`UPDATE` placeholders for a request body: the
      destructuring defaults first, then `undefined` bound as NULL. */
  function Columns(data: Object): (d: Doctor)
    ensures d.nombre == SqlParam(Get(data, "nombre"))
    ensures d.especialidad == SqlParam(Get(data, "especialidad"))
    ensures Get(data, "correo").Undefined? ==> d.correo == Null
    ensures Get(data, "telefono").Undefined? ==> d.telefono == Null
    ensures Get(data, "horario").Undefined? ==> d.horario == Null
    ensures Get(data, "estado").Undefined? ==> d.estado == Str("active")
    ensures !Get(data, "correo").Undefined? ==> d.correo == Get(data, "correo")
    ensures !Get(data, "telefono").Undefined? ==> d.telefono == Get(data, "telefono")
    ensures !Get(data, "horario").Undefined? ==> d.horario == Get(data, "horario")
    ensures !Get(data, "estado").Undefined? ==> d.estado == Get(data, "estado")
  {
    Doctor(
      SqlParam(Get(data, "nombre")),
      SqlParam(Get(data, "especialidad")),
      SqlParam(WithDefault(data, "correo", Null)),
      SqlParam(WithDefault(data, "telefono", Null)),
      SqlParam(WithDefault(data, "horario", Null)),
      SqlParam(WithDefault(data, "estado", Str("active"))))
  }

  /** No stored column is `undefined`: the driver writes NULL instead. */
  predicate Stored(d: Doctor)
  {
    !d.nombre.Undefined? && !d.especialidad.Undefined? && !d.correo.Undefined?
    && !d.telefono.Undefined? && !d.horario.Undefined? && !d.estado.Undefined?
  }

  /** A row as the client receives it, without its id. */
  function AsObject(d: Doctor): Object
  {
    map["nombre" := d.nombre, "especialidad" := d.especialidad, "correo" := d.correo,
        "telefono" := d.telefono, "horario" := d.horario, "estado" := d.estado]
  }

  /** What is bound for any body is a storable row. */
  lemma ColumnsStored(data: Object)
    ensures Stored(Columns(data))
  {
  }

  /** Sending a stored row back unchanged as an update body stores the same row: the defaults
      never replace a value that is there, `null` included. */
  lemma ColumnsRoundTrip(d: Doctor)
    requires Stored(d)
    ensures Columns(AsObject(d)) == d
  {
    var o := AsObject(d);
    assert Get(o, "nombre") == d.nombre;
    assert Get(o, "especialidad") == d.especialidad;
    assert Get(o, "correo") == d.correo;
    assert Get(o, "telefono") == d.telefono;
    assert Get(o, "horario") == d.horario;
    assert Get(o, "estado") == d.estado;
  }

  /** `!nombre || !especialidad` */
  predicate Rejected(data: Object)
    ensures Nullish(Get(data, "nombre")) || Nullish(Get(data, "especialidad")) ==> Rejected(data)
    ensures Get(data, "nombre") == Str("") || Get(data, "especialidad") == Str("") ==> Rejected(data)
    ensures (Get(data, "nombre").Str? && Get(data, "nombre").s != ""
             && Get(data, "especialidad").Str? && Get(data, "especialidad").s != "") ==> !Rejected(data)
  {
    !Truthy(Get(data, "nombre")) || !Truthy(Get(data, "especialidad"))
  }

  /** An empty body is rejected, and a body with just the two required names is accepted and
      stored with every default. */
  lemma RequiredAndDefaults(nombre: string, especialidad: string)
    requires nombre != "" && especialidad != ""
    ensures Rejected(map[])
    ensures var data := map["nombre" := Str(nombre), "especialidad" := Str(especialidad)];
            !Rejected(data)
            && Columns(data) == Doctor(Str(nombre), Str(especialidad), Null, Null, Null, Str("active"))
  {
    var data := map["nombre" := Str(nombre), "especialidad" := Str(especialidad)];
    assert Get(data, "nombre") == Str(nombre);
    assert Get(data, "especialidad") == Str(especialidad);
    assert "correo" !in data && "telefono" !in data && "horario" !in data && "estado" !in data;
  }

  /** The ids of a list of rows. */
  function Ids(rows: seq<DoctorRow>): (ids: set<int>)
    ensures forall i :: 0 <= i < |rows| ==> rows[i].id in ids
    ensures forall id :: id in ids ==> exists i :: 0 <= i < |rows| && rows[i].id == id
  {
    if rows == [] then {} else Ids(rows[..|rows| - 1]) + {rows[|rows| - 1].id}
  }

  /** `ORDER BY id DESC` */
  predicate IdDescending(rows: seq<DoctorRow>)
  {
    forall i, j :: 0 <= i < j < |rows| ==> rows[i].id > rows[j].id
  }

  /** The largest id of a non-empty set. */
  lemma {:induction false} Largest(s: set<int>) returns (k: int)
    requires s != {}
    ensures k in s && forall j :: j in s ==> j <= k
    decreases s
  {
    assert exists x :: x in s by {
      if forall x :: x !in s {
        assert false;
      }
    }
    var x :| x in s;
    if s == {x} {
      k := x;
    } else {
      var rest := Largest(s - {x});
      k := if x > rest then x else rest;
      forall j | j in s
        ensures j <= k
      {
        if j != x {
          assert j in s - {x};
        }
      }
    }
  }

  /** The listed rows are the table's rows under their ids. */
  ghost predicate FromTable(rows: map<int, Doctor>, listed: seq<DoctorRow>)
  {
    forall i :: 0 <= i < |listed| ==> listed[i].id in rows && rows[listed[i].id] == listed[i].doctor
  }

  /** Every remaining id is below every listed one. */
  ghost predicate Below(listed: seq<DoctorRow>, remaining: set<int>)
  {
    forall i, id :: 0 <= i < |listed| && id in remaining ==> id < listed[i].id
  }

  /** What `All` has done part way: `listed` holds, by id descending and straight from the
      table, every row not `remaining`, and every remaining id is below every listed one. */
  ghost predicate Listing(rows: map<int, Doctor>, listed: seq<DoctorRow>, remaining: set<int>)
  {
    remaining !! Ids(listed) && remaining + Ids(listed) == rows.Keys
    && FromTable(rows, listed) && IdDescending(listed) && Below(listed, remaining)
  }

  lemma AppendIds(listed: seq<DoctorRow>, row: DoctorRow)
    ensures Ids(listed + [row]) == Ids(listed) + {row.id}
  {
    assert (listed + [row])[..|listed|] == listed;
  }

  lemma AppendFromTable(rows: map<int, Doctor>, listed: seq<DoctorRow>, k: int)
    requires FromTable(rows, listed) && k in rows
    ensures FromTable(rows, listed + [DoctorRow(k, rows[k])])
  {
    var next := listed + [DoctorRow(k, rows[k])];
    forall i | 0 <= i < |next|
      ensures next[i].id in rows && rows[next[i].id] == next[i].doctor
    {
      if i < |listed| {
        assert next[i] == listed[i];
      }
    }
  }

  lemma AppendBelow(listed: seq<DoctorRow>, remaining: set<int>, row: DoctorRow)
    requires IdDescending(listed) && Below(listed, remaining)
    requires row.id in remaining && forall j :: j in remaining ==> j <= row.id
    ensures IdDescending(listed + [row]) && Below(listed + [row], remaining - {row.id})
  {
    var next := listed + [row];
    forall i, j | 0 <= i < j < |next|
      ensures next[i].id > next[j].id
    {
      if j == |listed| {
        assert next[i] == listed[i];
      } else {
        assert next[i] == listed[i] && next[j] == listed[j];
      }
    }
    forall i, id | 0 <= i < |next| && id in remaining - {row.id}
      ensures id < next[i].id
    {
      if i < |listed| {
        assert next[i] == listed[i];
      }
    }
  }

  /** Listing the largest remaining id next keeps `Listing`. */
  lemma AppendLargest(rows: map<int, Doctor>, listed: seq<DoctorRow>, remaining: set<int>, k: int)
    requires Listing(rows, listed, remaining)
    requires k in remaining && forall j :: j in remaining ==> j <= k
    ensures Listing(rows, listed + [DoctorRow(k, rows[k])], remaining - {k})
  {
    AppendIds(listed, DoctorRow(k, rows[k]));
    AppendFromTable(rows, listed, k);
    AppendBelow(listed, remaining, DoctorRow(k, rows[k]));
  }

  /** In-memory model of the `doctors` table. */
  class DoctorTable {
    var rows: map<int, Doctor>
    /** The next AUTO_INCREMENT id. */
    var nextId: int

    ghost predicate Valid()
      reads this
    {
      (forall id :: id in rows ==> id < nextId)
      && (forall id :: id in rows ==> Stored(rows[id]))
    }

    constructor(initial: map<int, Doctor>, next: int)
      requires forall id :: id in initial ==> id < next && Stored(initial[id])
      ensures rows == initial && nextId == next
      ensures Valid()
    {
      rows := initial;
      nextId := next;
    }

    /** `findById`: the row, or `null` for an unknown id. */
    function FindById(id: int): (r: Option<DoctorRow>)
      reads this
      ensures r.None? <==> id !in rows
      ensures r.Some? ==> r.value.id == id && r.value.doctor == rows[id]
    {
      if id in rows then Some(DoctorRow(id, rows[id])) else None
    }

    /** `all`: every doctor exactly once, by id descending. */
    method All() returns (r: seq<DoctorRow>)
      ensures forall i :: 0 <= i < |r| ==> r[i].id in rows && rows[r[i].id] == r[i].doctor
      ensures Ids(r) == rows.Keys
      ensures IdDescending(r)
    {
      var remaining := rows.Keys;
      r := [];
      assert Listing(rows, r, remaining);
      while remaining != {}
        invariant Listing(rows, r, remaining)
        decreases remaining
      {
        ghost var largest := Largest(remaining);
        var k :| k in remaining && forall j :: j in remaining ==> j <= k;
        AppendLargest(rows, r, remaining, k);
        r := r + [DoctorRow(k, rows[k])];
        remaining := remaining - {k};
      }
    }

    /** `create`: a body without a truthy `nombre` and `especialidad` is refused before
        anything is written; otherwise the row with its defaults is inserted under the next id
        and read back. */
    method Create(data: Object) returns (r: Result<Option<DoctorRow>, string>)
      requires Valid()
      modifies this
      ensures Valid()
      ensures r.Failure? <==> Rejected(data)
      ensures r.Failure? ==> r.error == MissingFields && rows == old(rows) && nextId == old(nextId)
      ensures r.Success? ==> old(nextId) !in old(rows)
                             && rows == old(rows)[old(nextId) := Columns(data)]
                             && nextId == old(nextId) + 1
                             && r.value == Some(DoctorRow(old(nextId), Columns(data)))
    {
      if Rejected(data) {
        return Failure(MissingFields);
      }
      var id := nextId;
      ColumnsStored(data);
      rows := rows[id := Columns(data)];
      nextId := nextId + 1;
      r := Success(FindById(id));
    }

    /** `update`: no validation; an existing row gets all six columns overwritten (with the same
        defaults as `create`), an unknown id changes nothing; the result is the row read back. */
    method Update(id: int, data: Object) returns (r: Option<DoctorRow>)
      requires Valid()
      modifies this
      ensures Valid()
      ensures nextId == old(nextId)
      ensures rows == if id in old(rows) then old(rows)[id := Columns(data)] else old(rows)
      ensures r == FindById(id)
      ensures r.None? <==> id !in old(rows)
    {
      if id in rows {
        ColumnsStored(data);
        rows := rows[id := Columns(data)];
      }
      r := FindById(id);
    }

    /** `remove`: the row is gone, and the answer is `{ok: true}` whether or not it was there. */
    method Remove(id: int) returns (r: Object)
      requires Valid()
      modifies this
      ensures Valid()
      ensures rows == old(rows) - {id} && nextId == old(nextId)
      ensures r == map["ok" := Bool(true)]
    {
      rows := rows - {id};
      r := map["ok" := Bool(true)];
    }
  }

  /** Deleting is idempotent: two `remove` calls on the same id leave the table as one does,
      both answer `{ok: true}`, and removing an absent id changes nothing. */
  method RemoveTwice(table: DoctorTable, id: int) returns (first: Object, second: Object)
    requires table.Valid()
    modifies table
    ensures table.Valid()
    ensures table.rows == old(table.rows) - {id} && table.nextId == old(table.nextId)
    ensures first == second == map["ok" := Bool(true)]
    ensures id !in old(table.rows) ==> table.rows == old(table.rows)
  {
    first := table.Remove(id);
    second := table.Remove(id);
  }
}
