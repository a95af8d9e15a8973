/** The two global tables of the codec layer and how the descriptor classes fill them:
    `OID_MAP` from a type oid to the descriptor that decodes it, and `TYPE_MAP` from an
    exact Python type to the descriptor whose `to_postgres` encodes it. */
module Registry {
  import opened Wrappers
  import opened Decimal
  import Utf8
  import opened Values
  import opened Temporal
  import opened Intervals
  import opened Descriptors

  /** `for key in keys: table[key] = v`, as a value: every listed key ends up mapped to
      `v`, and every other key keeps what it had. */
  function Assign<K(!new), V>(m: map<K, V>, keys: seq<K>, v: V): (r: map<K, V>)
    ensures forall k :: k in keys ==> k in r && r[k] == v
    ensures forall k :: k !in keys ==> (k in r <==> k in m)
    ensures forall k :: k !in keys && k in m ==> r[k] == m[k]
  {
    if keys == [] then m
    else Assign(m, keys[..|keys| - 1], v)[keys[|keys| - 1] := v]
  }

  /** Both tables at once. */
  datatype Tables = Tables(oids: map<int, Descriptor>, types: map<PyType, Descriptor>)

  /** What defining a descriptor class does to the tables (`AutoRegisteringPQType.__new__`):
      when the class registers itself, an adapter for each of its Python types and the
      class for each of its oids. */
  function Define(t: Tables, d: Descriptor): Tables {
    if AutoRegisters(d) then Tables(Assign(t.oids, Oids(d), d), Assign(t.types, PythonTypes(d), d))
    else t
  }

  /** Defining the classes of `ds` in order. */
  function DefineAll(t: Tables, ds: seq<Descriptor>): Tables {
    if ds == [] then t else Define(DefineAll(t, ds[..|ds| - 1]), ds[|ds| - 1])
  }

  /** The descriptor classes in the order the module defines them. */
  function Builtins(): seq<Descriptor> {
    [Base, Integer, RowId, Float, String, Unicode, AutoUnicode, Descriptor.Date,
     Descriptor.DateTime, DateTimeTz, Descriptor.Time, Interval, Boolean]
  }

  /** The tables once the module is imported. */
  function BuiltinTables(): Tables {
    DefineAll(Tables(map[], map[]), Builtins())
  }

  /** `get_type_by_oid`: the registered descriptor, or `default` for an oid that is not
      registered; None is never registered. */
  function TypeByOid(oids: map<int, Descriptor>, oid: Option<int>, default: Descriptor): (d: Descriptor)
    ensures oid.Some? && oid.value in oids ==> d == oids[oid.value]
    ensures oid.None? || oid.value !in oids ==> d == default
  {
    if oid.Some? && oid.value in oids then oids[oid.value] else default
  }

  /** Module-level `to_python(value, oid)` against an oid table. */
  function ToPythonIn(oids: map<int, Descriptor>, value: string, oid: Option<int>): Result<PyValue, Error> {
    DecodeWith(TypeByOid(oids, oid, String), value)
  }

  /** Module-level `to_postgres(value)` (and its alias `adapt`) against a type table. */
  function ToPostgresIn(types: map<PyType, Descriptor>, v: PyValue): (r: Result<Encoded, Error>)
    ensures TypeOf(v) !in types ==> r == Err(NotSupported(TypeOf(v)))
    ensures TypeOf(v) in types ==> r == EncodeWith(types[TypeOf(v)], v)
  {
    if TypeOf(v) in types then EncodeWith(types[TypeOf(v)], v) else Err(NotSupported(TypeOf(v)))
  }

  /** The oid table once the module is imported, in the order the entries are made. */
  function BuiltinOidMap(): map<int, Descriptor> {
    map[20 := Integer, 21 := Integer, 23 := Integer, 26 := RowId,
        700 := Float, 701 := Float, 25 := Unicode, 1043 := Unicode,
        1082 := Descriptor.Date, 1114 := Descriptor.DateTime, 1184 := DateTimeTz, 1083 := Descriptor.Time,
        1186 := Interval, 16 := Boolean]
  }

  /** The type table once the module is imported, in the order the entries are made. */
  function BuiltinTypeMap(): map<PyType, Descriptor> {
    map[IntType := Integer, FloatType := Float, StrType := String, UnicodeType := Unicode,
        DateType := Descriptor.Date, DateTimeType := Descriptor.DateTime, TimeType := Descriptor.Time, TimeDeltaType := Interval,
        PgIntervalType := Interval, BoolType := Boolean]
  }

  /** After the built-in definitions, oids 25 and 1043 belong to Unicode (defined after
      String), oid 26 to ROWID, nothing to AutoUnicode, and `bool` has its own adapter. */
  lemma BuiltinTablesContents()
    ensures BuiltinTables() == Tables(BuiltinOidMap(), BuiltinTypeMap())
    ensures Imported(BuiltinTables().oids, BuiltinTables().types)
  {
    DefineBuiltinsFrom(Tables(map[], map[]));
    LiteralTablesImported(BuiltinTables().oids, BuiltinTables().types);
  }

  lemma DefineBuiltinsFrom(t0: Tables)
    requires t0 == Tables(map[], map[])
    ensures DefineAll(t0, Builtins()) == Tables(BuiltinOidMap(), BuiltinTypeMap())
  {
    BuiltinsInGroups(t0);
    var t4 := DefineAll(t0, [Base, Integer, RowId, Float]);
    DefineNumbers(t0);
    var t7 := DefineAll(t4, [String, Unicode, AutoUnicode]);
    DefineStrings(t4);
    var t10 := DefineAll(t7, [Descriptor.Date, Descriptor.DateTime, DateTimeTz]);
    DefineTimestamps(t7);
    DefineRest(t10);
  }

  /** The built-in classes, defined four, three, three and three at a time. */
  lemma BuiltinsInGroups(t: Tables)
    ensures DefineAll(t, Builtins()) == DefineAll(DefineAll(DefineAll(DefineAll(t,
      [Base, Integer, RowId, Float]), [String, Unicode, AutoUnicode]),
      [Descriptor.Date, Descriptor.DateTime, DateTimeTz]), [Descriptor.Time, Interval, Boolean])
  {
    var numbers: seq<Descriptor> := [Base, Integer, RowId, Float];
    var strings: seq<Descriptor> := [String, Unicode, AutoUnicode];
    var stamps: seq<Descriptor> := [Descriptor.Date, Descriptor.DateTime, DateTimeTz];
    var rest: seq<Descriptor> := [Descriptor.Time, Interval, Boolean];
    assert numbers + strings == [Base, Integer, RowId, Float, String, Unicode, AutoUnicode];
    assert numbers + strings + stamps == [Base, Integer, RowId, Float, String, Unicode, AutoUnicode,
      Descriptor.Date, Descriptor.DateTime, DateTimeTz];
    assert Builtins() == numbers + strings + stamps + rest;
    DefineAllAppend(t, numbers + strings + stamps, rest);
    DefineAllAppend(t, numbers + strings, stamps);
    DefineAllAppend(t, numbers, strings);
  }

  /** Defining the numeric classes. */
  lemma DefineNumbers(t: Tables)
    requires t == Tables(
      map[],
      map[])
    ensures DefineAll(t, [Base, Integer, RowId, Float]) == Tables(
      map[20 := Integer, 21 := Integer, 23 := Integer, 26 := RowId,
          700 := Float, 701 := Float],
      map[IntType := Integer, FloatType := Float])
  {
    DefineFour(t, Base, Integer, RowId, Float);
    DefineBaseStep(t);
    DefineIntegerStep(Define(t, Base));
    DefineRowIdStep(Define(Define(t, Base), Integer));
    DefineFloatStep(Define(Define(Define(t, Base), Integer), RowId));
  }

  /** Defining the string classes. */
  lemma DefineStrings(t: Tables)
    requires t == Tables(
      map[20 := Integer, 21 := Integer, 23 := Integer, 26 := RowId,
          700 := Float, 701 := Float],
      map[IntType := Integer, FloatType := Float])
    ensures DefineAll(t, [String, Unicode, AutoUnicode]) == Tables(
      map[20 := Integer, 21 := Integer, 23 := Integer, 26 := RowId,
          700 := Float, 701 := Float, 25 := Unicode, 1043 := Unicode],
      map[IntType := Integer, FloatType := Float, StrType := String, UnicodeType := Unicode])
  {
    DefineThree(t, String, Unicode, AutoUnicode);
    DefineStringStep(t);
    DefineUnicodeStep(Define(t, String));
    DefineAutoUnicodeStep(Define(Define(t, String), Unicode));
  }

  /** Defining the date and timestamp classes. */
  lemma DefineTimestamps(t: Tables)
    requires t == Tables(
      map[20 := Integer, 21 := Integer, 23 := Integer, 26 := RowId,
          700 := Float, 701 := Float, 25 := Unicode, 1043 := Unicode],
      map[IntType := Integer, FloatType := Float, StrType := String, UnicodeType := Unicode])
    ensures DefineAll(t, [Descriptor.Date, Descriptor.DateTime, DateTimeTz]) == Tables(
      map[20 := Integer, 21 := Integer, 23 := Integer, 26 := RowId,
          700 := Float, 701 := Float, 25 := Unicode, 1043 := Unicode,
          1082 := Descriptor.Date, 1114 := Descriptor.DateTime, 1184 := DateTimeTz],
      map[IntType := Integer, FloatType := Float, StrType := String, UnicodeType := Unicode,
          DateType := Descriptor.Date, DateTimeType := Descriptor.DateTime])
  {
    DefineThree(t, Descriptor.Date, Descriptor.DateTime, DateTimeTz);
    DefineDateStep(t);
    DefineDateTimeStep(Define(t, Descriptor.Date));
    DefineDateTimeTzStep(Define(Define(t, Descriptor.Date), Descriptor.DateTime));
  }

  /** Defining Time, Interval and Boolean. */
  lemma DefineRest(t: Tables)
    requires t == Tables(
      map[20 := Integer, 21 := Integer, 23 := Integer, 26 := RowId,
          700 := Float, 701 := Float, 25 := Unicode, 1043 := Unicode,
          1082 := Descriptor.Date, 1114 := Descriptor.DateTime, 1184 := DateTimeTz],
      map[IntType := Integer, FloatType := Float, StrType := String, UnicodeType := Unicode,
          DateType := Descriptor.Date, DateTimeType := Descriptor.DateTime])
    ensures DefineAll(t, [Descriptor.Time, Interval, Boolean]) == Tables(BuiltinOidMap(), BuiltinTypeMap())
  {
    DefineThree(t, Descriptor.Time, Interval, Boolean);
    DefineTimeStep(t);
    DefineIntervalStep(Define(t, Descriptor.Time));
    DefineBooleanStep(Define(Define(t, Descriptor.Time), Interval));
  }

  lemma DefineBaseStep(t: Tables)
    requires t == Tables(
      map[],
      map[])
    ensures Define(t, Base) == Tables(
      map[],
      map[])
  {
  }

  lemma DefineIntegerStep(t: Tables)
    requires t == Tables(
      map[],
      map[])
    ensures Define(t, Integer) == Tables(
      map[20 := Integer, 21 := Integer, 23 := Integer],
      map[IntType := Integer])
  {
    AssignThree(t.oids, 20, 21, 23, Integer);
    AssignOne(t.types, IntType, Integer);
  }

  lemma DefineRowIdStep(t: Tables)
    requires t == Tables(
      map[20 := Integer, 21 := Integer, 23 := Integer],
      map[IntType := Integer])
    ensures Define(t, RowId) == Tables(
      map[20 := Integer, 21 := Integer, 23 := Integer, 26 := RowId],
      map[IntType := Integer])
  {
    AssignOne(t.oids, 26, RowId);
  }

  lemma DefineFloatStep(t: Tables)
    requires t == Tables(
      map[20 := Integer, 21 := Integer, 23 := Integer, 26 := RowId],
      map[IntType := Integer])
    ensures Define(t, Float) == Tables(
      map[20 := Integer, 21 := Integer, 23 := Integer, 26 := RowId,
          700 := Float, 701 := Float],
      map[IntType := Integer, FloatType := Float])
  {
    AssignTwo(t.oids, 700, 701, Float);
    AssignOne(t.types, FloatType, Float);
  }

  lemma DefineStringStep(t: Tables)
    requires t == Tables(
      map[20 := Integer, 21 := Integer, 23 := Integer, 26 := RowId,
          700 := Float, 701 := Float],
      map[IntType := Integer, FloatType := Float])
    ensures Define(t, String) == Tables(
      map[20 := Integer, 21 := Integer, 23 := Integer, 26 := RowId,
          700 := Float, 701 := Float, 25 := String, 1043 := String],
      map[IntType := Integer, FloatType := Float, StrType := String])
  {
    AssignTwo(t.oids, 25, 1043, String);
    AssignOne(t.types, StrType, String);
  }

  lemma DefineUnicodeStep(t: Tables)
    requires t == Tables(
      map[20 := Integer, 21 := Integer, 23 := Integer, 26 := RowId,
          700 := Float, 701 := Float, 25 := String, 1043 := String],
      map[IntType := Integer, FloatType := Float, StrType := String])
    ensures Define(t, Unicode) == Tables(
      map[20 := Integer, 21 := Integer, 23 := Integer, 26 := RowId,
          700 := Float, 701 := Float, 25 := Unicode, 1043 := Unicode],
      map[IntType := Integer, FloatType := Float, StrType := String, UnicodeType := Unicode])
  {
    AssignTwo(t.oids, 25, 1043, Unicode);
    AssignOne(t.types, UnicodeType, Unicode);
  }

  lemma DefineAutoUnicodeStep(t: Tables)
    requires t == Tables(
      map[20 := Integer, 21 := Integer, 23 := Integer, 26 := RowId,
          700 := Float, 701 := Float, 25 := Unicode, 1043 := Unicode],
      map[IntType := Integer, FloatType := Float, StrType := String, UnicodeType := Unicode])
    ensures Define(t, AutoUnicode) == Tables(
      map[20 := Integer, 21 := Integer, 23 := Integer, 26 := RowId,
          700 := Float, 701 := Float, 25 := Unicode, 1043 := Unicode],
      map[IntType := Integer, FloatType := Float, StrType := String, UnicodeType := Unicode])
  {
  }

  lemma DefineDateStep(t: Tables)
    requires t == Tables(
      map[20 := Integer, 21 := Integer, 23 := Integer, 26 := RowId,
          700 := Float, 701 := Float, 25 := Unicode, 1043 := Unicode],
      map[IntType := Integer, FloatType := Float, StrType := String, UnicodeType := Unicode])
    ensures Define(t, Descriptor.Date) == Tables(
      map[20 := Integer, 21 := Integer, 23 := Integer, 26 := RowId,
          700 := Float, 701 := Float, 25 := Unicode, 1043 := Unicode,
          1082 := Descriptor.Date],
      map[IntType := Integer, FloatType := Float, StrType := String, UnicodeType := Unicode,
          DateType := Descriptor.Date])
  {
    AssignOne(t.oids, 1082, Descriptor.Date);
    AssignOne(t.types, DateType, Descriptor.Date);
  }

  lemma DefineDateTimeStep(t: Tables)
    requires t == Tables(
      map[20 := Integer, 21 := Integer, 23 := Integer, 26 := RowId,
          700 := Float, 701 := Float, 25 := Unicode, 1043 := Unicode,
          1082 := Descriptor.Date],
      map[IntType := Integer, FloatType := Float, StrType := String, UnicodeType := Unicode,
          DateType := Descriptor.Date])
    ensures Define(t, Descriptor.DateTime) == Tables(
      map[20 := Integer, 21 := Integer, 23 := Integer, 26 := RowId,
          700 := Float, 701 := Float, 25 := Unicode, 1043 := Unicode,
          1082 := Descriptor.Date, 1114 := Descriptor.DateTime],
      map[IntType := Integer, FloatType := Float, StrType := String, UnicodeType := Unicode,
          DateType := Descriptor.Date, DateTimeType := Descriptor.DateTime])
  {
    AssignOne(t.oids, 1114, Descriptor.DateTime);
    AssignOne(t.types, DateTimeType, Descriptor.DateTime);
  }

  lemma DefineDateTimeTzStep(t: Tables)
    requires t == Tables(
      map[20 := Integer, 21 := Integer, 23 := Integer, 26 := RowId,
          700 := Float, 701 := Float, 25 := Unicode, 1043 := Unicode,
          1082 := Descriptor.Date, 1114 := Descriptor.DateTime],
      map[IntType := Integer, FloatType := Float, StrType := String, UnicodeType := Unicode,
          DateType := Descriptor.Date, DateTimeType := Descriptor.DateTime])
    ensures Define(t, DateTimeTz) == Tables(
      map[20 := Integer, 21 := Integer, 23 := Integer, 26 := RowId,
          700 := Float, 701 := Float, 25 := Unicode, 1043 := Unicode,
          1082 := Descriptor.Date, 1114 := Descriptor.DateTime, 1184 := DateTimeTz],
      map[IntType := Integer, FloatType := Float, StrType := String, UnicodeType := Unicode,
          DateType := Descriptor.Date, DateTimeType := Descriptor.DateTime])
  {
    AssignOne(t.oids, 1184, DateTimeTz);
  }

  lemma DefineTimeStep(t: Tables)
    requires t == Tables(
      map[20 := Integer, 21 := Integer, 23 := Integer, 26 := RowId,
          700 := Float, 701 := Float, 25 := Unicode, 1043 := Unicode,
          1082 := Descriptor.Date, 1114 := Descriptor.DateTime, 1184 := DateTimeTz],
      map[IntType := Integer, FloatType := Float, StrType := String, UnicodeType := Unicode,
          DateType := Descriptor.Date, DateTimeType := Descriptor.DateTime])
    ensures Define(t, Descriptor.Time) == Tables(
      map[20 := Integer, 21 := Integer, 23 := Integer, 26 := RowId,
          700 := Float, 701 := Float, 25 := Unicode, 1043 := Unicode,
          1082 := Descriptor.Date, 1114 := Descriptor.DateTime, 1184 := DateTimeTz, 1083 := Descriptor.Time],
      map[IntType := Integer, FloatType := Float, StrType := String, UnicodeType := Unicode,
          DateType := Descriptor.Date, DateTimeType := Descriptor.DateTime, TimeType := Descriptor.Time])
  {
    AssignOne(t.oids, 1083, Descriptor.Time);
    AssignOne(t.types, TimeType, Descriptor.Time);
  }

  lemma DefineIntervalStep(t: Tables)
    requires t == Tables(
      map[20 := Integer, 21 := Integer, 23 := Integer, 26 := RowId,
          700 := Float, 701 := Float, 25 := Unicode, 1043 := Unicode,
          1082 := Descriptor.Date, 1114 := Descriptor.DateTime, 1184 := DateTimeTz, 1083 := Descriptor.Time],
      map[IntType := Integer, FloatType := Float, StrType := String, UnicodeType := Unicode,
          DateType := Descriptor.Date, DateTimeType := Descriptor.DateTime, TimeType := Descriptor.Time])
    ensures Define(t, Interval) == Tables(
      map[20 := Integer, 21 := Integer, 23 := Integer, 26 := RowId,
          700 := Float, 701 := Float, 25 := Unicode, 1043 := Unicode,
          1082 := Descriptor.Date, 1114 := Descriptor.DateTime, 1184 := DateTimeTz, 1083 := Descriptor.Time,
          1186 := Interval],
      map[IntType := Integer, FloatType := Float, StrType := String, UnicodeType := Unicode,
          DateType := Descriptor.Date, DateTimeType := Descriptor.DateTime, TimeType := Descriptor.Time, TimeDeltaType := Interval,
          PgIntervalType := Interval])
  {
    AssignOne(t.oids, IntervalOid, Interval);
    AssignTwo(t.types, TimeDeltaType, PgIntervalType, Interval);
  }

  lemma DefineBooleanStep(t: Tables)
    requires t == Tables(
      map[20 := Integer, 21 := Integer, 23 := Integer, 26 := RowId,
          700 := Float, 701 := Float, 25 := Unicode, 1043 := Unicode,
          1082 := Descriptor.Date, 1114 := Descriptor.DateTime, 1184 := DateTimeTz, 1083 := Descriptor.Time,
          1186 := Interval],
      map[IntType := Integer, FloatType := Float, StrType := String, UnicodeType := Unicode,
          DateType := Descriptor.Date, DateTimeType := Descriptor.DateTime, TimeType := Descriptor.Time, TimeDeltaType := Interval,
          PgIntervalType := Interval])
    ensures Define(t, Boolean) == Tables(BuiltinOidMap(), BuiltinTypeMap())
  {
    AssignOne(t.oids, 16, Boolean);
    AssignOne(t.types, BoolType, Boolean);
  }

  /** Defining the classes of `a + b` is defining those of `a`, then those of `b`. */
  lemma {:induction false} DefineAllAppend(t: Tables, a: seq<Descriptor>, b: seq<Descriptor>)
    ensures DefineAll(t, a + b) == DefineAll(DefineAll(t, a), b)
  {
    if b == [] {
      assert a + b == a;
    } else {
      var front := b[..|b| - 1];
      DefineAllAppend(t, a, front);
      assert (a + b)[..|a + b| - 1] == a + front;
    }
  }

  /** Defining one more class after those of `ds`. */
  lemma DefineAllSnoc(t: Tables, ds: seq<Descriptor>, d: Descriptor)
    ensures DefineAll(t, ds + [d]) == Define(DefineAll(t, ds), d)
  {
    var s := ds + [d];
    assert s[..|s| - 1] == ds;
  }

  lemma DefineThree(t: Tables, x: Descriptor, y: Descriptor, z: Descriptor)
    ensures DefineAll(t, [x, y, z]) == Define(Define(Define(t, x), y), z)
  {
    var none: seq<Descriptor> := [];
    DefineAllSnoc(t, none, x);
    assert none + [x] == [x];
    DefineAllSnoc(t, [x], y);
    assert [x] + [y] == [x, y];
    DefineAllSnoc(t, [x, y], z);
    assert [x, y] + [z] == [x, y, z];
  }

  lemma DefineFour(t: Tables, w: Descriptor, x: Descriptor, y: Descriptor, z: Descriptor)
    ensures DefineAll(t, [w, x, y, z]) == Define(Define(Define(Define(t, w), x), y), z)
  {
    DefineThree(t, w, x, y);
    DefineAllSnoc(t, [w, x, y], z);
    assert [w, x, y] + [z] == [w, x, y, z];
  }

  /** `Assign` over one, two or three listed keys, written out. */
  lemma AssignOne<K(!new), V>(m: map<K, V>, a: K, v: V)
    ensures Assign(m, [a], v) == m[a := v]
  {
    assert [a][..0] == [];
  }

  lemma AssignTwo<K(!new), V>(m: map<K, V>, a: K, b: K, v: V)
    ensures Assign(m, [a, b], v) == m[a := v][b := v]
  {
    assert [a, b][..1] == [a];
    AssignOne(m, a, v);
  }

  lemma AssignThree<K(!new), V>(m: map<K, V>, a: K, b: K, c: K, v: V)
    ensures Assign(m, [a, b, c], v) == m[a := v][b := v][c := v]
  {
    assert [a, b, c][..2] == [a, b];
    AssignTwo(m, a, b, v);
  }

  // ---------------------------------------------------------------------------------
  // Which registration wins

  /** An oid belongs to the last registering class that lists it, whatever came before. */
  lemma {:induction false} LastOidDefinitionWins(t: Tables, ds: seq<Descriptor>, i: nat, oid: int)
    requires i < |ds| && AutoRegisters(ds[i]) && oid in Oids(ds[i])
    requires forall j :: i < j < |ds| && AutoRegisters(ds[j]) ==> oid !in Oids(ds[j])
    ensures oid in DefineAll(t, ds).oids && DefineAll(t, ds).oids[oid] == ds[i]
  {
    var front, last := ds[..|ds| - 1], ds[|ds| - 1];
    assert DefineAll(t, ds) == Define(DefineAll(t, front), last);
    if i < |ds| - 1 {
      LastOidDefinitionWins(t, front, i, oid);
      assert !AutoRegisters(last) || oid !in Oids(last);
    }
  }

  /** A type's adapter is the last registering class that lists the type. */
  lemma {:induction false} LastTypeDefinitionWins(t: Tables, ds: seq<Descriptor>, i: nat, ty: PyType)
    requires i < |ds| && AutoRegisters(ds[i]) && ty in PythonTypes(ds[i])
    requires forall j :: i < j < |ds| && AutoRegisters(ds[j]) ==> ty !in PythonTypes(ds[j])
    ensures ty in DefineAll(t, ds).types && DefineAll(t, ds).types[ty] == ds[i]
  {
    var front, last := ds[..|ds| - 1], ds[|ds| - 1];
    assert DefineAll(t, ds) == Define(DefineAll(t, front), last);
    if i < |ds| - 1 {
      LastTypeDefinitionWins(t, front, i, ty);
      assert !AutoRegisters(last) || ty !in PythonTypes(last);
    }
  }

  /** An oid that no registering class lists is left as it was. */
  lemma {:induction false} UnlistedOidUntouched(t: Tables, ds: seq<Descriptor>, oid: int)
    requires forall j :: 0 <= j < |ds| && AutoRegisters(ds[j]) ==> oid !in Oids(ds[j])
    ensures oid in DefineAll(t, ds).oids <==> oid in t.oids
    ensures oid in t.oids ==> DefineAll(t, ds).oids[oid] == t.oids[oid]
  {
    if ds != [] {
      UnlistedOidUntouched(t, ds[..|ds| - 1], oid);
    }
  }

  /** A type that no registering class lists keeps its adapter, or its absence. */
  lemma {:induction false} UnlistedTypeUntouched(t: Tables, ds: seq<Descriptor>, ty: PyType)
    requires forall j :: 0 <= j < |ds| && AutoRegisters(ds[j]) ==> ty !in PythonTypes(ds[j])
    ensures ty in DefineAll(t, ds).types <==> ty in t.types
    ensures ty in t.types ==> DefineAll(t, ds).types[ty] == t.types[ty]
  {
    if ds != [] {
      UnlistedTypeUntouched(t, ds[..|ds| - 1], ty);
    }
  }

  /** String is defined before Unicode and both list 25 and 1043, so Unicode owns them;
      AutoUnicode, which lists them too, registers nothing. */
  lemma UnicodeOwnsTextOids(oid: int)
    requires oid == 25 || oid == 1043
    ensures oid in BuiltinTables().oids && BuiltinTables().oids[oid] == Unicode
  {
    var ds := Builtins();
    assert ds[5] == Unicode && AutoRegisters(ds[5]);
    LastOidDefinitionWins(Tables(map[], map[]), ds, 5, oid);
  }

  // ---------------------------------------------------------------------------------
  // The module-level codec once the built-in classes are defined

  /** The class that owns an oid once the module is imported. */
  function BuiltinOwner(oid: int): Option<Descriptor> {
    match oid
    case 16 => Some(Boolean)
    case 20 => Some(Integer)
    case 21 => Some(Integer)
    case 23 => Some(Integer)
    case 25 => Some(Unicode)
    case 26 => Some(RowId)
    case 700 => Some(Float)
    case 701 => Some(Float)
    case 1043 => Some(Unicode)
    case 1082 => Some(Descriptor.Date)
    case 1083 => Some(Descriptor.Time)
    case 1114 => Some(Descriptor.DateTime)
    case 1184 => Some(DateTimeTz)
    case 1186 => Some(Interval)
    case _ => None
  }

  /** The class whose encoder is registered for a type once the module is imported. */
  function BuiltinAdapter(ty: PyType): Option<Descriptor> {
    match ty
    case IntType => Some(Integer)
    case FloatType => Some(Float)
    case StrType => Some(String)
    case UnicodeType => Some(Unicode)
    case DateType => Some(Descriptor.Date)
    case DateTimeType => Some(Descriptor.DateTime)
    case TimeType => Some(Descriptor.Time)
    case TimeDeltaType => Some(Interval)
    case PgIntervalType => Some(Interval)
    case BoolType => Some(Boolean)
    case _ => None
  }

  /** `table.get(key)`. */
  function Lookup<K, V>(m: map<K, V>, k: K): Option<V> {
    if k in m then Some(m[k]) else None
  }

  /** The two tables as importing the module leaves them (see `BuiltinTablesContents`),
      entry by entry. */
  ghost predicate Imported(oids: map<int, Descriptor>, types: map<PyType, Descriptor>) {
    && (forall oid :: Lookup(oids, oid) == BuiltinOwner(oid))
    && (forall ty :: Lookup(types, ty) == BuiltinAdapter(ty))
  }

  /** One entry of the import-time oid table. */
  lemma OwnerOf(oids: map<int, Descriptor>, types: map<PyType, Descriptor>, oid: int)
    requires Imported(oids, types)
    ensures oid in oids <==> BuiltinOwner(oid).Some?
    ensures oid in oids ==> oids[oid] == BuiltinOwner(oid).value
  {
    assert Lookup(oids, oid) == BuiltinOwner(oid);
  }

  /** One entry of the import-time type table. */
  lemma AdapterOf(oids: map<int, Descriptor>, types: map<PyType, Descriptor>, ty: PyType)
    requires Imported(oids, types)
    ensures ty in types <==> BuiltinAdapter(ty).Some?
    ensures ty in types ==> types[ty] == BuiltinAdapter(ty).value
  {
    assert Lookup(types, ty) == BuiltinAdapter(ty);
  }

  /** The literal oid table holds exactly the owners `BuiltinOwner` names. */
  lemma OidLiteralEntries(oids: map<int, Descriptor>)
    requires oids == BuiltinOidMap()
    ensures forall oid :: oid in oids <==> BuiltinOwner(oid).Some?
    ensures forall oid :: oid in oids ==> oids[oid] == BuiltinOwner(oid).value
  {
    forall oid
      ensures oid in oids <==> BuiltinOwner(oid).Some?
      ensures oid in oids ==> oids[oid] == BuiltinOwner(oid).value
    {
      if oid !in {16, 20, 21, 23, 25, 26, 700, 701, 1043, 1082, 1083, 1114, 1184, 1186} {
        assert oid !in oids;
      }
    }
  }

  /** The literal type table holds exactly the adapters `BuiltinAdapter` names. */
  lemma TypeLiteralEntries(types: map<PyType, Descriptor>)
    requires types == BuiltinTypeMap()
    ensures forall ty :: ty in types <==> BuiltinAdapter(ty).Some?
    ensures forall ty :: ty in types ==> types[ty] == BuiltinAdapter(ty).value
  {
    forall ty
      ensures ty in types <==> BuiltinAdapter(ty).Some?
      ensures ty in types ==> types[ty] == BuiltinAdapter(ty).value
    {
      match ty
      case NoneType =>
      case LongType =>
      case OtherType(_) =>
      case _ =>
    }
  }

  /** The literal tables are the import-time tables entry by entry. */
  lemma LiteralTablesImported(oids: map<int, Descriptor>, types: map<PyType, Descriptor>)
    requires oids == BuiltinOidMap() && types == BuiltinTypeMap()
    ensures Imported(oids, types)
  {
    OidLiteralEntries(oids);
    TypeLiteralEntries(types);
    forall oid
      ensures Lookup(oids, oid) == BuiltinOwner(oid)
    {
    }
    forall ty
      ensures Lookup(types, ty) == BuiltinAdapter(ty)
    {
    }
  }

  /** Decoding at a registered oid is decoding with its class. */
  lemma DecodeAt(oids: map<int, Descriptor>, oid: int, d: Descriptor, value: string)
    requires oid in oids && oids[oid] == d
    ensures ToPythonIn(oids, value, Some(oid)) == DecodeWith(d, value)
  {
  }

  /** Encoding a value of a registered type is encoding with its class. */
  lemma EncodeAt(types: map<PyType, Descriptor>, v: PyValue, d: Descriptor)
    requires TypeOf(v) in types && types[TypeOf(v)] == d
    ensures ToPostgresIn(types, v) == EncodeWith(d, v)
  {
  }

  /** An oid with no registered class, or no oid at all, decodes as String: the text
      comes back unchanged. */
  lemma UnregisteredOidIsText(oids: map<int, Descriptor>, types: map<PyType, Descriptor>,
                              value: string, oid: Option<int>)
    requires Imported(oids, types)
    requires oid.None? || oid.value !in {16, 20, 21, 23, 25, 26, 700, 701, 1043, 1082, 1083, 1114, 1184, 1186}
    ensures ToPythonIn(oids, value, oid) == Ok(StrVal(value))
  {
    if oid.Some? {
      OwnerOf(oids, types, oid.value);
    }
  }

  /** The registered oids. */
  lemma RegisteredOids(oids: map<int, Descriptor>, types: map<PyType, Descriptor>, oid: int)
    requires Imported(oids, types)
    ensures oid in oids <==>
      oid in {16, 20, 21, 23, 25, 26, 700, 701, 1043, 1082, 1083, 1114, 1184, 1186}
  {
    OwnerOf(oids, types, oid);
  }

  /** Encoding dispatches on the exact type: None, `long` and objects of other classes
      have no adapter, and `bool` has its own rather than `int`'s. */
  lemma EncodeDispatch(oids: map<int, Descriptor>, types: map<PyType, Descriptor>, v: PyValue)
    requires Imported(oids, types)
    ensures TypeOf(v) !in types <==> v.NoneVal? || v.LongVal? || v.OtherVal?
    ensures v.NoneVal? || v.LongVal? || v.OtherVal? ==>
      ToPostgresIn(types, v) == Err(NotSupported(TypeOf(v)))
    ensures v.BoolVal? ==> types[TypeOf(v)] == Boolean
    ensures v.TimeDeltaVal? || v.PgIntervalVal? ==> types[TypeOf(v)] == Interval
  {
    AdapterOf(oids, types, TypeOf(v));
    assert TypeOf(v) !in types <==> v.NoneVal? || v.LongVal? || v.OtherVal? by {
      match v
      case NoneVal =>
      case LongVal(_) =>
      case OtherVal(_, _) =>
      case _ =>
    }
  }

  /** A machine integer goes out as its decimal text tagged 0, which is no registered
      oid: decoded at that tag it stays text, and at 20, 21 and 23 (Integer) or 26 (ROWID,
      which inherits `int()`) it is read back as an `int`. */
  lemma IntegerThroughTables(oids: map<int, Descriptor>, types: map<PyType, Descriptor>,
                             n: MachineInt, oid: int)
    requires Imported(oids, types) && oid in {20, 21, 23, 26}
    ensures ToPostgresIn(types, IntVal(n)) == Ok(Encoded(StrVal(IntToDecimal(n)), 0))
    ensures ToPythonIn(oids, IntToDecimal(n), Some(0)) == Ok(StrVal(IntToDecimal(n)))
    ensures ToPythonIn(oids, IntToDecimal(n), Some(oid)) == Ok(IntVal(n))
  {
    OwnerOf(oids, types, oid);
    OwnerOf(oids, types, 0);
    AdapterOf(oids, types, IntType);
    IntegerAtEntries(oids, types, n, oid);
  }

  /** `IntegerThroughTables` from just the table entries it reads. */
  lemma IntegerAtEntries(oids: map<int, Descriptor>, types: map<PyType, Descriptor>,
                         n: MachineInt, oid: int)
    requires IntType in types && types[IntType] == Integer && 0 !in oids
    requires oid in oids && (oids[oid] == Integer || oids[oid] == RowId)
    ensures ToPostgresIn(types, IntVal(n)) == Ok(Encoded(StrVal(IntToDecimal(n)), 0))
    ensures ToPythonIn(oids, IntToDecimal(n), Some(0)) == Ok(StrVal(IntToDecimal(n)))
    ensures ToPythonIn(oids, IntToDecimal(n), Some(oid)) == Ok(IntVal(n))
  {
    IntegerRoundTrip(n);
    EncodeAt(types, IntVal(n), Integer);
    DecodeAt(oids, oid, oids[oid], IntToDecimal(n));
  }

  /** A float goes out as its text tagged 700 and comes back unchanged at 700 and 701. */
  lemma FloatThroughTables(oids: map<int, Descriptor>, types: map<PyType, Descriptor>,
                           literal: string, oid: int)
    requires Imported(oids, types) && oid in {700, 701}
    ensures ToPostgresIn(types, FloatVal(literal)) == Ok(Encoded(StrVal(literal), 700))
    ensures ToPythonIn(oids, literal, Some(oid)) == Ok(FloatVal(literal))
  {
    OwnerOf(oids, types, oid);
    AdapterOf(oids, types, FloatType);
    FloatAtEntries(oids, types, literal, oid);
  }

  /** `FloatThroughTables` from just the table entries it reads. */
  lemma FloatAtEntries(oids: map<int, Descriptor>, types: map<PyType, Descriptor>,
                       literal: string, oid: int)
    requires FloatType in types && types[FloatType] == Float && oid in oids && oids[oid] == Float
      && oid in {700, 701}
    ensures ToPostgresIn(types, FloatVal(literal)) == Ok(Encoded(StrVal(literal), 700))
    ensures ToPythonIn(oids, literal, Some(oid)) == Ok(FloatVal(literal))
  {
    EncodeAt(types, FloatVal(literal), Float);
    DecodeAt(oids, oid, Float, literal);
  }

  /** A byte string goes out unchanged tagged 0, and every text oid gives it back. */
  lemma StrThroughTables(oids: map<int, Descriptor>, types: map<PyType, Descriptor>,
                         s: string, oid: Option<int>)
    requires Imported(oids, types)
    requires oid == None || oid == Some(25) || oid == Some(1043) || oid == Some(0)
    ensures ToPostgresIn(types, StrVal(s)) == Ok(Encoded(StrVal(s), 0))
    ensures ToPythonIn(oids, s, oid) == Ok(StrVal(s))
  {
    OwnerOf(oids, types, 0);
    OwnerOf(oids, types, 25);
    OwnerOf(oids, types, 1043);
    AdapterOf(oids, types, StrType);
    StrAtEntries(oids, types, s, oid);
  }

  /** `StrThroughTables` from just the table entries it reads. */
  lemma StrAtEntries(oids: map<int, Descriptor>, types: map<PyType, Descriptor>,
                     s: string, oid: Option<int>)
    requires StrType in types && types[StrType] == String && 0 !in oids
      && 25 in oids && oids[25] == Unicode && 1043 in oids && oids[1043] == Unicode
    requires oid == None || oid == Some(25) || oid == Some(1043) || oid == Some(0)
    ensures ToPostgresIn(types, StrVal(s)) == Ok(Encoded(StrVal(s), 0))
    ensures ToPythonIn(oids, s, oid) == Ok(StrVal(s))
  {
    EncodeAt(types, StrVal(s), String);
    if oid == Some(25) || oid == Some(1043) {
      DecodeAt(oids, oid.value, Unicode, s);
    }
  }

  /** Unicode text goes out as its UTF-8 bytes tagged 25; since AutoUnicode is not
      registered, decoding at 25 gives those bytes back as a byte string, not the text. */
  lemma UnicodeThroughTables(oids: map<int, Descriptor>, types: map<PyType, Descriptor>, u: string)
    requires Imported(oids, types)
    ensures ToPostgresIn(types, UnicodeVal(u)) == Ok(Encoded(StrVal(Utf8.Encode(u)), 25))
    ensures ToPythonIn(oids, Utf8.Encode(u), Some(25)) == Ok(StrVal(Utf8.Encode(u)))
  {
    OwnerOf(oids, types, 25);
    AdapterOf(oids, types, UnicodeType);
    UnicodeAtEntries(oids, types, u);
  }

  /** `UnicodeThroughTables` from just the table entries it reads. */
  lemma UnicodeAtEntries(oids: map<int, Descriptor>, types: map<PyType, Descriptor>, u: string)
    requires UnicodeType in types && types[UnicodeType] == Unicode && 25 in oids && oids[25] == Unicode
    ensures ToPostgresIn(types, UnicodeVal(u)) == Ok(Encoded(StrVal(Utf8.Encode(u)), 25))
    ensures ToPythonIn(oids, Utf8.Encode(u), Some(25)) == Ok(StrVal(Utf8.Encode(u)))
  {
    EncodeAt(types, UnicodeVal(u), Unicode);
    DecodeAt(oids, 25, Unicode, Utf8.Encode(u));
  }

  /** `bool` goes out as `True`/`False` tagged 16, which the Boolean decoder refuses. */
  lemma BooleanThroughTables(oids: map<int, Descriptor>, types: map<PyType, Descriptor>, b: bool)
    requires Imported(oids, types)
    ensures ToPostgresIn(types, BoolVal(b)) == Ok(Encoded(StrVal(if b then "True" else "False"), 16))
    ensures ToPythonIn(oids, if b then "True" else "False", Some(16))
      == Err(BoolError(if b then "true" else "false"))
    ensures ToPythonIn(oids, if b then "t" else "f", Some(16)) == Ok(BoolVal(b))
  {
    OwnerOf(oids, types, 16);
    AdapterOf(oids, types, BoolType);
    BooleanAtEntries(oids, types, b);
  }

  /** `BooleanThroughTables` from just the table entries it reads. */
  lemma BooleanAtEntries(oids: map<int, Descriptor>, types: map<PyType, Descriptor>, b: bool)
    requires BoolType in types && types[BoolType] == Boolean && 16 in oids && oids[16] == Boolean
    ensures ToPostgresIn(types, BoolVal(b)) == Ok(Encoded(StrVal(if b then "True" else "False"), 16))
    ensures ToPythonIn(oids, if b then "True" else "False", Some(16))
      == Err(BoolError(if b then "true" else "false"))
    ensures ToPythonIn(oids, if b then "t" else "f", Some(16)) == Ok(BoolVal(b))
  {
    EncodeAt(types, BoolVal(b), Boolean);
    DecodeAt(oids, 16, Boolean, if b then "True" else "False");
    DecodeAt(oids, 16, Boolean, if b then "t" else "f");
    BooleanTextIsNotBoolInput(b);
    BoolOfCases(if b then "t" else "f");
  }

  /** A date goes out as `YYYY-MM-DD` tagged 1082 and comes back equal. */
  lemma DateThroughTables(oids: map<int, Descriptor>, types: map<PyType, Descriptor>, d: PyDate)
    requires Imported(oids, types)
    ensures ToPostgresIn(types, DateVal(d)) == Ok(Encoded(StrVal(DateIso(d)), 1082))
    ensures ToPythonIn(oids, DateIso(d), Some(1082)) == Ok(DateVal(d))
  {
    OwnerOf(oids, types, 1082);
    AdapterOf(oids, types, DateType);
    DateAtEntries(oids, types, d);
  }

  /** `DateThroughTables` from just the table entries it reads. */
  lemma DateAtEntries(oids: map<int, Descriptor>, types: map<PyType, Descriptor>, d: PyDate)
    requires DateType in types && types[DateType] == Descriptor.Date && 1082 in oids
      && oids[1082] == Descriptor.Date
    ensures ToPostgresIn(types, DateVal(d)) == Ok(Encoded(StrVal(DateIso(d)), 1082))
    ensures ToPythonIn(oids, DateIso(d), Some(1082)) == Ok(DateVal(d))
  {
    EncodeAt(types, DateVal(d), Descriptor.Date);
    DecodeAt(oids, 1082, Descriptor.Date, DateIso(d));
    DateDescriptorRoundTrip(d);
  }

  /** A timestamp goes out as `str(datetime)` tagged 1114 and comes back equal. */
  lemma DateTimeThroughTables(oids: map<int, Descriptor>, types: map<PyType, Descriptor>, dt: DateTime)
    requires Imported(oids, types)
    ensures ToPostgresIn(types, DateTimeVal(dt)) == Ok(Encoded(StrVal(DateTimeIso(dt)), 1114))
    ensures ToPythonIn(oids, DateTimeIso(dt), Some(1114)) == Ok(DateTimeVal(dt))
  {
    OwnerOf(oids, types, 1114);
    AdapterOf(oids, types, DateTimeType);
    DateTimeAtEntries(oids, types, dt);
  }

  /** `DateTimeThroughTables` from just the table entries it reads. */
  lemma DateTimeAtEntries(oids: map<int, Descriptor>, types: map<PyType, Descriptor>, dt: DateTime)
    requires DateTimeType in types && types[DateTimeType] == Descriptor.DateTime && 1114 in oids
      && oids[1114] == Descriptor.DateTime
    ensures ToPostgresIn(types, DateTimeVal(dt)) == Ok(Encoded(StrVal(DateTimeIso(dt)), 1114))
    ensures ToPythonIn(oids, DateTimeIso(dt), Some(1114)) == Ok(DateTimeVal(dt))
  {
    EncodeAt(types, DateTimeVal(dt), Descriptor.DateTime);
    DecodeAt(oids, 1114, Descriptor.DateTime, DateTimeIso(dt));
    DateTimeDescriptorRoundTrip(dt);
  }

  /** At oid 1184 a timestamp with a `+zone` suffix reads as the timestamp, zone dropped. */
  lemma TimestampTzThroughTables(oids: map<int, Descriptor>, types: map<PyType, Descriptor>,
                                 dt: DateTime, zone: string)
    requires Imported(oids, types)
    ensures ToPythonIn(oids, DateTimeIso(dt) + "+" + zone, Some(1184)) == Ok(DateTimeVal(dt))
  {
    OwnerOf(oids, types, 1184);
    TimestampTzAtEntries(oids, types, dt, zone);
  }

  /** `TimestampTzThroughTables` from just the table entries it reads. */
  lemma TimestampTzAtEntries(oids: map<int, Descriptor>, types: map<PyType, Descriptor>,
                             dt: DateTime, zone: string)
    requires 1184 in oids && oids[1184] == DateTimeTz
    ensures ToPythonIn(oids, DateTimeIso(dt) + "+" + zone, Some(1184)) == Ok(DateTimeVal(dt))
  {
    DecodeAt(oids, 1184, DateTimeTz, DateTimeIso(dt) + "+" + zone);
    DateTimeTzDescriptorReads(dt, zone);
  }

  /** A time of day goes out as `time.isoformat()` tagged 1083 and comes back equal. */
  lemma TimeThroughTables(oids: map<int, Descriptor>, types: map<PyType, Descriptor>, t: PyTime)
    requires Imported(oids, types)
    ensures ToPostgresIn(types, TimeVal(t)) == Ok(Encoded(StrVal(TimeIso(t)), 1083))
    ensures ToPythonIn(oids, TimeIso(t), Some(1083)) == Ok(TimeVal(t))
  {
    OwnerOf(oids, types, 1083);
    AdapterOf(oids, types, TimeType);
    TimeAtEntries(oids, types, t);
  }

  /** `TimeThroughTables` from just the table entries it reads. */
  lemma TimeAtEntries(oids: map<int, Descriptor>, types: map<PyType, Descriptor>, t: PyTime)
    requires TimeType in types && types[TimeType] == Descriptor.Time && 1083 in oids
      && oids[1083] == Descriptor.Time
    ensures ToPostgresIn(types, TimeVal(t)) == Ok(Encoded(StrVal(TimeIso(t)), 1083))
    ensures ToPythonIn(oids, TimeIso(t), Some(1083)) == Ok(TimeVal(t))
  {
    EncodeAt(types, TimeVal(t), Descriptor.Time);
    DecodeAt(oids, 1083, Descriptor.Time, TimeIso(t));
    TimeDescriptorRoundTrip(t);
  }

  /** Interval text decoded at 1186 goes back out as exactly that text, tagged 1186. */
  lemma IntervalThroughTables(oids: map<int, Descriptor>, types: map<PyType, Descriptor>, value: string)
    requires Imported(oids, types) && IntervalOf(value).Ok?
    ensures ToPythonIn(oids, value, Some(IntervalOid)) == IntervalOf(value)
    ensures ToPostgresIn(types, IntervalOf(value).value) == Ok(Encoded(StrVal(value), IntervalOid))
  {
    OwnerOf(oids, types, IntervalOid);
    AdapterOf(oids, types, PgIntervalType);
    IntervalAtEntries(oids, types, value);
  }

  /** `IntervalThroughTables` from just the table entries it reads. */
  lemma IntervalAtEntries(oids: map<int, Descriptor>, types: map<PyType, Descriptor>, value: string)
    requires PgIntervalType in types && types[PgIntervalType] == Interval && IntervalOid in oids
      && oids[IntervalOid] == Interval && IntervalOf(value).Ok?
    ensures ToPythonIn(oids, value, Some(IntervalOid)) == IntervalOf(value)
    ensures ToPostgresIn(types, IntervalOf(value).value) == Ok(Encoded(StrVal(value), IntervalOid))
  {
    var decoded := IntervalOf(value);
    assert DecodeWith(Interval, value) == decoded;
    DecodeAt(oids, IntervalOid, Interval, value);
    IntervalTextRoundTrip(value);
    assert TypeOf(decoded.value) == PgIntervalType;
    EncodeAt(types, decoded.value, Interval);
  }

  /** A plain timedelta goes out as days, seconds and microseconds tagged 1186; decoding
      that text keeps the days and loses the seconds and microseconds. */
  lemma TimeDeltaThroughTables(oids: map<int, Descriptor>, types: map<PyType, Descriptor>, d: PyDelta)
    requires Imported(oids, types)
    ensures ToPostgresIn(types, TimeDeltaVal(d)) == Ok(Encoded(StrVal(SynthText(d)), IntervalOid))
    ensures ToPythonIn(oids, SynthText(d), Some(IntervalOid))
      == Ok(PgIntervalVal(Delta(d.days, 0, 0), Some(SynthText(d))))
  {
    OwnerOf(oids, types, IntervalOid);
    AdapterOf(oids, types, TimeDeltaType);
    TimeDeltaAtEntries(oids, types, d);
  }

  /** `TimeDeltaThroughTables` from just the table entries it reads. */
  lemma TimeDeltaAtEntries(oids: map<int, Descriptor>, types: map<PyType, Descriptor>, d: PyDelta)
    requires TimeDeltaType in types && types[TimeDeltaType] == Interval && IntervalOid in oids
      && oids[IntervalOid] == Interval
    ensures ToPostgresIn(types, TimeDeltaVal(d)) == Ok(Encoded(StrVal(SynthText(d)), IntervalOid))
    ensures ToPythonIn(oids, SynthText(d), Some(IntervalOid))
      == Ok(PgIntervalVal(Delta(d.days, 0, 0), Some(SynthText(d))))
  {
    EncodeAt(types, TimeDeltaVal(d), Interval);
    DecodeAt(oids, IntervalOid, Interval, SynthText(d));
    SynthTextDecodesToDays(d);
  }

  /** The two tables as module state: the registration functions update them in place. */
  class Registry {
    var oidMap: map<int, Descriptor>
    var typeMap: map<PyType, Descriptor>

    function Contents(): Tables
      reads this
    {
      Tables(oidMap, typeMap)
    }

    /** `TYPE_MAP = {}` and `OID_MAP = {}`. */
    constructor()
      ensures oidMap == map[] && typeMap == map[]
    {
      oidMap := map[];
      typeMap := map[];
    }

    /** `register_adapter(cls, adapter)`. */
    method RegisterAdapter(t: PyType, d: Descriptor)
      modifies this
      ensures typeMap == old(typeMap)[t := d]
      ensures oidMap == old(oidMap)
    {
      typeMap := typeMap[t := d];
    }

    /** `register_type(cls)`: every oid the class lists now maps to it. */
    method RegisterType(d: Descriptor)
      modifies this
      ensures oidMap == Assign(old(oidMap), Oids(d), d)
      ensures typeMap == old(typeMap)
    {
      var oids := Oids(d);
      for i := 0 to |oids|
        invariant oidMap == Assign(old(oidMap), oids[..i], d)
        invariant typeMap == old(typeMap)
      {
        assert oids[..i + 1][..i] == oids[..i];
        oidMap := oidMap[oids[i] := d];
      }
      assert oids[..|oids|] == oids;
    }

    /** The metaclass step run when a descriptor class is defined. */
    method DefineClass(d: Descriptor)
      modifies this
      ensures Contents() == Define(old(Contents()), d)
    {
      if AutoRegisters(d) {
        var types := PythonTypes(d);
        for i := 0 to |types|
          invariant typeMap == Assign(old(typeMap), types[..i], d)
          invariant oidMap == old(oidMap)
        {
          assert types[..i + 1][..i] == types[..i];
          RegisterAdapter(types[i], d);
        }
        assert types[..|types|] == types;
        RegisterType(d);
      }
    }

    /** Defining the built-in descriptor classes in order, as importing the module does. */
    method RegisterBuiltins()
      modifies this
      ensures Contents() == DefineAll(old(Contents()), Builtins())
    {
      var ds := Builtins();
      for i := 0 to |ds|
        invariant Contents() == DefineAll(old(Contents()), ds[..i])
      {
        assert ds[..i + 1][..i] == ds[..i];
        DefineClass(ds[i]);
      }
      assert ds[..|ds|] == ds;
    }

    /** `get_type_by_oid(oid, default)`. */
    function GetTypeByOid(oid: Option<int>, default: Descriptor): (d: Descriptor)
      reads this
      ensures oid.Some? && oid.value in oidMap ==> d == oidMap[oid.value]
      ensures oid.None? || oid.value !in oidMap ==> d == default
    {
      TypeByOid(oidMap, oid, default)
    }

    /** Module-level `to_python(value, oid=None)`: decode with the descriptor registered
        for the oid, String when there is none. */
    method ToPython(value: string, oid: Option<int>) returns (r: Result<PyValue, Error>)
      ensures r == ToPythonIn(oidMap, value, oid)
    {
      var d := GetTypeByOid(oid, String);
      match d {
        case Time =>
          var t := DecodeTime(value);
          if t.Err? {
            return Err(t.error);
          }
          r := Ok(TimeVal(t.value));
        case Interval =>
          r := DecodeInterval(value);
        case _ =>
          r := DecodeWith(d, value);
      }
    }

    /** Module-level `to_postgres(value)`, also exported as `adapt`: the adapter
        registered for the exact type of the value, NotSupportedError when there is none. */
    function ToPostgres(v: PyValue): (r: Result<Encoded, Error>)
      reads this
      ensures r == ToPostgresIn(typeMap, v)
    {
      if TypeOf(v) in typeMap then EncodeWith(typeMap[TypeOf(v)], v)
      else Err(NotSupported(TypeOf(v)))
    }
  }

  /** Importing the module: empty tables, then each built-in class definition in turn. */
  method Import() returns (reg: Registry)
    ensures fresh(reg)
    ensures reg.Contents() == BuiltinTables()
    ensures Imported(reg.oidMap, reg.typeMap)
  {
    reg := new Registry();
    reg.RegisterBuiltins();
    BuiltinTablesContents();
  }
}
