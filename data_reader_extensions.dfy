/** The extension methods on IDataReader: the typed reads TryGet<T> and
    Get<T>, a first-match cascade over one cell and the target type, and the
    materialisation loops ToList and ToDictionary. */
module DataReaderExtensions {
  import opened Wrappers
  import opened Strings
  import opened ClrTypes
  import opened DataReaders

  /** The culture a conversion formats and parses with. */
  datatype Culture = CurrentCulture | InvariantCulture

  /** The framework code the cascade calls without defining it, left
      uninterpreted: Convert.ChangeType(v, type[, provider]) for a non-nullable
      value type, Enum.Parse(enumType, text), and v.ToString(). */
  datatype Library = Library(
    changeType: (Value, ValueType, Culture) -> Result<Value, Error>,
    enumParse: (EnumType, string) -> Result<int, Error>,
    format: Value -> string)

  /** What TryGet<T> reports: its boolean result and its `out T value`. */
  datatype Lookup = Lookup(found: bool, value: Value)

  /** The type `t` of IDataReaderExtensions.cs:165-175: typeof(T) with
      Nullable<> unwrapped, or None when that is not a value type. */
  function EffectiveType(ty: Target): (r: Option<ValueType>)
    ensures r.None? <==> !(ty.Struct? || ty.Nullable?)
    ensures r.Some? ==> forall v :: v != Null && HasType(v, ty) ==> HasType(v, Struct(r.value))
  {
    match ty
    case Struct(vt) => Some(vt)
    case Nullable(vt) => Some(vt)
    case _ => None
  }

  /** Enum.Parse(enumType, text): a Type that is not itself an enumeration
      (Nullable<E> included) is rejected with ArgumentException. */
  function EnumParse(lib: Library, enumType: Target, text: string): (r: Result<Value, Error>)
    ensures r.Success? ==> enumType.Struct? && enumType.vt.Enum?
    ensures r.Success? ==> r.value.EnumValue? && r.value.enum == enumType.vt.enum
    ensures !(enumType.Struct? && enumType.vt.Enum?) ==> r == Failure(NotAnEnumType)
  {
    if enumType.Struct? && enumType.vt.Enum? then
      match lib.enumParse(enumType.vt.enum, text)
      case Success(n) => Success(EnumValue(enumType.vt.enum, n))
      case Failure(e) => Failure(e)
    else
      Failure(NotAnEnumType)
  }

  /** Convert.ChangeType(v, conversionType[, provider]): a Nullable<> conversion
      type is not one IConvertible converts to, and is rejected with
      InvalidCastException. */
  function ChangeType(lib: Library, v: Value, conversionType: Target, culture: Culture): (r: Result<Value, Error>)
    requires conversionType.Struct? || conversionType.Nullable?
    ensures conversionType.Nullable? ==> r == Failure(InvalidCast)
  {
    if conversionType.Struct? then lib.changeType(v, conversionType.vt, culture) else Failure(InvalidCast)
  }

  /** Unboxing `(T)obj` for a non-nullable value type: the boxed type must be T,
      except that an int unboxes to an int-based enumeration and back. */
  function Unbox(obj: Value, vt: ValueType): (r: Result<Value, Error>)
    ensures r.Success? ==> HasType(r.value, Struct(vt))
    ensures IsAssignable(vt, obj) ==> r == Success(obj)
  {
    if obj.Null? then Failure(NullReference)
    else if ValueTypeOf(obj) == Some(vt) then Success(obj)
    else if vt.Enum? && obj.I32? then Success(EnumValue(vt.enum, obj.n))
    else if vt.Int32? && obj.EnumValue? then Success(I32(obj.n))
    else Failure(InvalidCast)
  }

  /** The cast `(T)obj` of a converted object; an empty Nullable<T> takes null. */
  function CastTo(obj: Value, ty: Target): (r: Result<Value, Error>)
    requires ty.Struct? || ty.Nullable?
    ensures r.Success? ==> HasType(r.value, ty)
  {
    if ty.Nullable? && obj.Null? then Success(Null)
    else Unbox(obj, if ty.Struct? then ty.vt else ty.inner)
  }

  /** IDataReaderExtensions.cs:165-204: a non-null cell read as a type other
      than string. */
  function Coerce(lib: Library, v: Value, ty: Target): (r: Result<Value, Error>)
    requires v != Null && !ty.Text?
    ensures r.Success? ==> HasType(r.value, ty)
    ensures EffectiveType(ty).None? ==> r == Failure(InvalidCast)
  {
    match EffectiveType(ty)
    case None => Failure(InvalidCast)
    case Some(t) =>
      if IsAssignable(t, v) then Success(v)
      else if t.Enum? then
        if v.Str? then
          EnumParse(lib, ty, v.s)
        else if ty == Struct(t) then
          if v.I32? then Success(EnumValue(t.enum, v.n))
          else
            match ChangeType(lib, v, Struct(Int32), CurrentCulture)
            case Success(obj) => Unbox(obj, t)
            case Failure(e) => Failure(e)
        else
          EnumParse(lib, Struct(t), lib.format(v))
      else
        match ChangeType(lib, v, ty, InvariantCulture)
        case Success(obj) => CastTo(obj, ty)
        case Failure(e) => Failure(e)
  }

  /** TryGet<T>(reader, ordinal, out value). A null cell is "not found" with
      default(T) before the type is looked at; every other path either throws
      or reports "found" with a value of type T. */
  function TryGet(lib: Library, reader: Option<Row>, ordinal: int, ty: Target): (r: Result<Lookup, Error>)
    ensures reader.None? ==> r == Failure(ArgumentNull("reader"))
    ensures r.Success? ==> reader.Some? && CellAt(reader.value, ordinal).Success?
    ensures r.Success? ==> (r.value.found <==> CellAt(reader.value, ordinal).value != Null)
    ensures r.Success? ==> HasType(r.value.value, ty)
    ensures r.Success? && !r.value.found ==> r.value.value == Default(ty)
  {
    if reader.None? then Failure(ArgumentNull("reader"))
    else
      match CellAt(reader.value, ordinal)
      case Failure(e) => Failure(e)
      case Success(cell) =>
        if cell.Null? then Success(Lookup(false, Default(ty)))
        else if ty.Text? then
          match GetString(cell)
          case Success(s) => Success(Lookup(true, Str(s)))
          case Failure(e) => Failure(e)
        else
          match Coerce(lib, cell, ty)
          case Success(v) => Success(Lookup(true, v))
          case Failure(e) => Failure(e)
  }

  /** TryGet<T>(reader, name, out value): the reader's own GetOrdinal resolves the name. */
  function TryGetByName(lib: Library, reader: Option<Row>, name: string, ty: Target): (r: Result<Lookup, Error>)
    ensures reader.None? ==> r == Failure(ArgumentNull("reader"))
    ensures reader.Some? && GetOrdinal(reader.value.names, name).Failure? ==> r == Failure(IndexOutOfRange)
    ensures r.Success? ==> HasType(r.value.value, ty)
  {
    if reader.None? then Failure(ArgumentNull("reader"))
    else
      match GetOrdinal(reader.value.names, name)
      case Failure(e) => Failure(e)
      case Success(i) => TryGet(lib, reader, i, ty)
  }

  /** Get<T>(value-producing lookup): the out value whatever TryGet returned. */
  function ValueOf(l: Result<Lookup, Error>): Result<Value, Error> {
    match l
    case Success(x) => Success(x.value)
    case Failure(e) => Failure(e)
  }

  /** Get<T>(..., defaultValue): `defaultValue` replaces the out value when TryGet returned false. */
  function ValueOr(l: Result<Lookup, Error>, defaultValue: Value): Result<Value, Error> {
    match l
    case Success(x) => Success(if x.found then x.value else defaultValue)
    case Failure(e) => Failure(e)
  }

  /** Get<T>(reader, ordinal). */
  function Get(lib: Library, reader: Option<Row>, ordinal: int, ty: Target): (r: Result<Value, Error>)
    ensures reader.None? ==> r == Failure(ArgumentNull("reader"))
    ensures reader.Some? && CellAt(reader.value, ordinal) == Success(Null) ==> r == Success(Default(ty))
    ensures r.Success? ==> HasType(r.value, ty)
  {
    ValueOf(TryGet(lib, reader, ordinal, ty))
  }

  /** Get<T>(reader, ordinal, defaultValue). */
  function GetOr(lib: Library, reader: Option<Row>, ordinal: int, ty: Target, defaultValue: Value): (r: Result<Value, Error>)
    ensures reader.None? ==> r == Failure(ArgumentNull("reader"))
    ensures reader.Some? && CellAt(reader.value, ordinal) == Success(Null) ==> r == Success(defaultValue)
    ensures r.Success? && r.value != defaultValue ==> HasType(r.value, ty)
  {
    ValueOr(TryGet(lib, reader, ordinal, ty), defaultValue)
  }

  /** Get<T>(reader, name). */
  function GetByName(lib: Library, reader: Option<Row>, name: string, ty: Target): (r: Result<Value, Error>)
    ensures reader.None? ==> r == Failure(ArgumentNull("reader"))
    ensures reader.Some? && GetOrdinal(reader.value.names, name).Failure? ==> r == Failure(IndexOutOfRange)
    ensures r.Success? ==> HasType(r.value, ty)
  {
    ValueOf(TryGetByName(lib, reader, name, ty))
  }

  /** Get<T>(reader, name, defaultValue). */
  function GetByNameOr(lib: Library, reader: Option<Row>, name: string, ty: Target, defaultValue: Value): (r: Result<Value, Error>)
    ensures reader.None? ==> r == Failure(ArgumentNull("reader"))
    ensures reader.Some? && GetOrdinal(reader.value.names, name).Failure? ==> r == Failure(IndexOutOfRange)
    ensures r.Success? && r.value != defaultValue ==> HasType(r.value, ty)
  {
    ValueOr(TryGetByName(lib, reader, name, ty), defaultValue)
  }

  // ---------------------------------------------------------------------------
  // Properties of the cascade

  /** The member an Enum.Parse outcome denotes. */
  function Member(e: EnumType, parsed: Result<int, Error>): Result<Value, Error> {
    match parsed
    case Success(n) => Success(EnumValue(e, n))
    case Failure(x) => Failure(x)
  }

  /** A conversion outcome, unboxed to `vt`. */
  function UnboxResult(converted: Result<Value, Error>, vt: ValueType): Result<Value, Error> {
    match converted
    case Success(obj) => Unbox(obj, vt)
    case Failure(x) => Failure(x)
  }

  /** A null cell is "not found" with default(T) for every T, including the
      reference types that a non-null cell would be refused for. */
  lemma NullCellNotFound(lib: Library, row: Row, ordinal: int, ty: Target)
    requires CellAt(row, ordinal) == Success(Null)
    ensures TryGet(lib, Some(row), ordinal, ty) == Success(Lookup(false, Default(ty)))
    ensures Get(lib, Some(row), ordinal, ty) == Success(Default(ty))
    ensures forall d :: GetOr(lib, Some(row), ordinal, ty, d) == Success(d)
  {
  }

  /** A string target reads the cell with GetString and reports it found. */
  lemma TextTargetReadsString(lib: Library, row: Row, ordinal: int)
    requires CellAt(row, ordinal).Success? && CellAt(row, ordinal).value != Null
    ensures var cell := CellAt(row, ordinal).value;
      TryGet(lib, Some(row), ordinal, Text) ==
        (if cell.Str? then Success(Lookup(true, cell)) else Failure(InvalidCast))
  {
  }

  /** A reference type other than string is refused for every non-null cell. */
  lemma NonValueTargetThrows(lib: Library, row: Row, ordinal: int, name: string)
    requires CellAt(row, ordinal).Success? && CellAt(row, ordinal).value != Null
    ensures TryGet(lib, Some(row), ordinal, Reference(name)) == Failure(InvalidCast)
  {
  }

  /** A raw value whose type already is the unwrapped target comes back unchanged. */
  lemma AssignableUnchanged(lib: Library, row: Row, ordinal: int, ty: Target)
    requires CellAt(row, ordinal).Success?
    requires EffectiveType(ty).Some? && IsAssignable(EffectiveType(ty).value, CellAt(row, ordinal).value)
    ensures TryGet(lib, Some(row), ordinal, ty) == Success(Lookup(true, CellAt(row, ordinal).value))
  {
  }

  /** A plain enumeration target: a string is parsed by Enum.Parse(typeof(T)),
      an int is reinterpreted, anything else is converted to int (current
      culture) and then reinterpreted. */
  lemma PlainEnumTarget(lib: Library, v: Value, e: EnumType)
    requires v != Null && !v.EnumValue?
    ensures v.Str? ==> Coerce(lib, v, Struct(Enum(e))) == Member(e, lib.enumParse(e, v.s))
    ensures v.I32? ==> Coerce(lib, v, Struct(Enum(e))) == Success(EnumValue(e, v.n))
    ensures !v.Str? && !v.I32? ==>
      Coerce(lib, v, Struct(Enum(e))) == UnboxResult(lib.changeType(v, Int32, CurrentCulture), Enum(e))
  {
  }

  /** A nullable enumeration target: a non-string value is parsed from its
      ToString() text by Enum.Parse(t); a string value is handed to
      Enum.Parse(typeof(T)), which refuses Nullable<E>, so it always throws. */
  lemma NullableEnumTarget(lib: Library, v: Value, e: EnumType)
    requires v != Null && !v.EnumValue?
    ensures !v.Str? ==> Coerce(lib, v, Nullable(Enum(e))) == Member(e, lib.enumParse(e, lib.format(v)))
    ensures v.Str? ==> Coerce(lib, v, Nullable(Enum(e))) == Failure(NotAnEnumType)
  {
  }

  /** Any other value type: Convert.ChangeType to typeof(T) itself, with the
      invariant culture, then a cast to T. */
  lemma GeneralConversion(lib: Library, v: Value, vt: ValueType)
    requires v != Null && !vt.Enum? && !IsAssignable(vt, v)
    ensures Coerce(lib, v, Struct(vt)) == UnboxResult(lib.changeType(v, vt, InvariantCulture), vt)
  {
  }

  /** Because the conversion targets typeof(T) and not the unwrapped type, a
      Nullable<X> target whose value needs converting always throws. */
  lemma NullableConversionThrows(lib: Library, v: Value, vt: ValueType)
    requires v != Null && !vt.Enum? && !IsAssignable(vt, v)
    ensures Coerce(lib, v, Nullable(vt)) == Failure(InvalidCast)
  {
  }

  /** An Enum.Parse that resolves every member name of every enumeration to
      the member's value. */
  ghost predicate ResolvesMemberNames(lib: Library) {
    forall e: EnumType, i :: 0 <= i < |e.members| && (forall j :: 0 <= j < i ==> e.members[j].0 != e.members[i].0) ==>
      lib.enumParse(e, e.members[i].0) == Success(e.members[i].1)
  }

  /** A text cell holding a member's name reads as that member. */
  lemma EnumMemberFromText(lib: Library, row: Row, ordinal: int, e: EnumType, i: nat)
    requires ResolvesMemberNames(lib)
    requires i < |e.members| && forall j :: 0 <= j < i ==> e.members[j].0 != e.members[i].0
    requires CellAt(row, ordinal) == Success(Str(e.members[i].0))
    ensures TryGet(lib, Some(row), ordinal, Struct(Enum(e))) == Success(Lookup(true, EnumValue(e, e.members[i].1)))
  {
  }

  /** Get with a default returns the default exactly when TryGet returns false,
      and TryGet's value otherwise; the plain Get always returns TryGet's value. */
  lemma GetOrFollowsTryGet(lib: Library, reader: Option<Row>, ordinal: int, ty: Target, d: Value)
    ensures var t := TryGet(lib, reader, ordinal, ty);
      && (t.Success? && !t.value.found ==> GetOr(lib, reader, ordinal, ty, d) == Success(d))
      && (t.Success? && t.value.found ==> GetOr(lib, reader, ordinal, ty, d) == Success(t.value.value))
      && (t.Failure? ==> GetOr(lib, reader, ordinal, ty, d) == Failure(t.error))
      && (t.Success? ==> Get(lib, reader, ordinal, ty) == Success(t.value.value))
  {
  }

  /** The name overloads read the cell at the reader's own ordinal for the name. */
  lemma ByNameIsByOrdinal(lib: Library, row: Row, name: string, ty: Target, d: Value)
    requires GetOrdinal(row.names, name).Success?
    ensures var i := GetOrdinal(row.names, name).value;
      && TryGetByName(lib, Some(row), name, ty) == TryGet(lib, Some(row), i, ty)
      && GetByName(lib, Some(row), name, ty) == Get(lib, Some(row), i, ty)
      && GetByNameOr(lib, Some(row), name, ty, d) == GetOr(lib, Some(row), i, ty, d)
  {
  }

  // ---------------------------------------------------------------------------
  // Materialisation: ToList and ToDictionary

  /** The values `f` projects from the records, in fetch order; the first
      record whose projection throws ends the list with that exception. */
  function ProjectAll<R>(names: seq<string>, records: seq<seq<Value>>, f: Row -> Result<R, Error>): (r: Result<seq<R>, Error>)
    ensures r.Success? ==> |r.value| == |records|
    decreases |records|
  {
    if records == [] then Success([])
    else
      var n := |records| - 1;
      match ProjectAll(names, records[..n], f)
      case Failure(e) => Failure(e)
      case Success(vs) =>
        match f(Row(names, records[n]))
        case Failure(e) => Failure(e)
        case Success(v) => Success(vs + [v])
  }

  /** The dictionary Dictionary.Add builds from the records in fetch order: each
      projected value under key(record, value). The first record whose
      projection throws, or whose key an earlier record already used, ends the
      build with that exception. */
  function KeyedBy<K, V>(names: seq<string>, records: seq<seq<Value>>, f: Row -> Result<V, Error>, key: (Row, V) -> Result<K, Error>): Result<map<K, V>, Error>
    decreases |records|
  {
    if records == [] then Success(map[])
    else
      var n := |records| - 1;
      match KeyedBy(names, records[..n], f, key)
      case Failure(e) => Failure(e)
      case Success(m) => AddRecord(m, Row(names, records[n]), f, key)
  }

  /** One turn of the ToDictionary loop: project the record, select its key,
      and Dictionary.Add the value under it, which throws on a key already present. */
  function AddRecord<K, V>(m: map<K, V>, row: Row, f: Row -> Result<V, Error>, key: (Row, V) -> Result<K, Error>): Result<map<K, V>, Error> {
    match f(row)
    case Failure(e) => Failure(e)
    case Success(v) =>
      match key(row, v)
      case Failure(e) => Failure(e)
      case Success(k) => if k in m then Failure(DuplicateKey) else Success(m[k := v])
  }

  /** Dictionary.Add never overwrites: a successful turn adds exactly one new
      key and keeps every earlier entry; a key already present throws. */
  lemma AddRecordAdds<K, V>(m: map<K, V>, row: Row, f: Row -> Result<V, Error>, key: (Row, V) -> Result<K, Error>)
    ensures var r := AddRecord(m, row, f, key);
      && (r.Success? ==> |r.value| == |m| + 1 && m.Keys < r.value.Keys)
      && (r.Success? ==> forall k :: k in m ==> r.value[k] == m[k])
      && (f(row).Success? && key(row, f(row).value).Success? ==>
            (r.Failure? <==> key(row, f(row).value).value in m) && (r.Failure? ==> r.error == DuplicateKey))
  {
  }

  /** ToList's promise: on success, element i is `f` applied to record i, in
      fetch order; on failure, the exception is that of the first record whose
      projection throws. */
  lemma {:induction false} ProjectAllSpec<R>(names: seq<string>, records: seq<seq<Value>>, f: Row -> Result<R, Error>)
    ensures var r := ProjectAll(names, records, f);
      r.Success? ==> forall i :: 0 <= i < |records| ==> f(Row(names, records[i])) == Success(r.value[i])
    ensures var r := ProjectAll(names, records, f);
      r.Failure? ==> exists i :: (0 <= i < |records| && f(Row(names, records[i])) == Failure(r.error)
                                  && forall j :: 0 <= j < i ==> f(Row(names, records[j])).Success?)
    ensures (forall i :: 0 <= i < |records| ==> f(Row(names, records[i])).Success?) ==> ProjectAll(names, records, f).Success?
    decreases |records|
  {
    if records != [] {
      var n := |records| - 1;
      var prefix := records[..n];
      ProjectAllSpec(names, prefix, f);
      assert forall i :: 0 <= i < n ==> prefix[i] == records[i];
    }
  }

  /** Every record's key selector returns, given the projected values `vs`. */
  ghost predicate KeysDefined<K, V>(names: seq<string>, records: seq<seq<Value>>, vs: seq<V>, key: (Row, V) -> Result<K, Error>)
    requires |records| == |vs|
  {
    forall i :: 0 <= i < |records| ==> key(Row(names, records[i]), vs[i]).Success?
  }

  /** The key of record `i` once its projection and key selector have returned. */
  function KeyAt<K, V>(names: seq<string>, records: seq<seq<Value>>, vs: seq<V>, key: (Row, V) -> Result<K, Error>, i: nat): K
    requires i < |records| == |vs|
    requires key(Row(names, records[i]), vs[i]).Success?
  {
    key(Row(names, records[i]), vs[i]).value
  }

  ghost predicate DistinctKeys<K, V>(names: seq<string>, records: seq<seq<Value>>, vs: seq<V>, key: (Row, V) -> Result<K, Error>)
    requires |records| == |vs| && KeysDefined(names, records, vs, key)
  {
    forall i, j :: 0 <= i < j < |records| ==> KeyAt(names, records, vs, key, i) != KeyAt(names, records, vs, key, j)
  }

  /** `m` holds each record's value under its key, and nothing else. */
  ghost predicate IndexesRecords<K, V>(m: map<K, V>, names: seq<string>, records: seq<seq<Value>>, vs: seq<V>, key: (Row, V) -> Result<K, Error>)
    requires |records| == |vs| && KeysDefined(names, records, vs, key)
  {
    && (forall i :: 0 <= i < |records| ==> KeyAt(names, records, vs, key, i) in m && m[KeyAt(names, records, vs, key, i)] == vs[i])
    && (forall k :: k in m ==> exists i :: 0 <= i < |records| && KeyAt(names, records, vs, key, i) == k)
  }

  /** Projecting a prefix of the records gives the prefix of the projections. */
  lemma {:induction false} ProjectAllPrefix<R>(names: seq<string>, records: seq<seq<Value>>, f: Row -> Result<R, Error>, vs: seq<R>, n: nat)
    requires ProjectAll(names, records, f) == Success(vs)
    requires n <= |records|
    ensures ProjectAll(names, records[..n], f) == Success(vs[..n])
    decreases |records|
  {
    if n == |records| {
      assert records[..n] == records && vs[..n] == vs;
    } else {
      var m := |records| - 1;
      assert vs[..m] + [vs[m]] == vs;
      ProjectAllPrefix(names, records[..m], f, vs[..m], n);
      assert records[..m][..n] == records[..n] && vs[..m][..n] == vs[..n];
    }
  }

  /** A projection failure in a prefix of the records is the failure of the whole list. */
  lemma {:induction false} ProjectAllFailurePersists<R>(names: seq<string>, records: seq<seq<Value>>, f: Row -> Result<R, Error>, k: nat)
    requires k <= |records|
    requires ProjectAll(names, records[..k], f).Failure?
    ensures ProjectAll(names, records, f) == ProjectAll(names, records[..k], f)
    decreases |records| - k
  {
    if k < |records| {
      var n := |records| - 1;
      assert records[..n][..k] == records[..k];
      ProjectAllFailurePersists(names, records[..n], f, k);
    } else {
      assert records[..k] == records;
    }
  }

  /** A failure while building from a prefix of the records is the failure of the whole build. */
  lemma {:induction false} KeyedByFailurePersists<K, V>(names: seq<string>, records: seq<seq<Value>>, f: Row -> Result<V, Error>, key: (Row, V) -> Result<K, Error>, k: nat)
    requires k <= |records|
    requires KeyedBy(names, records[..k], f, key).Failure?
    ensures KeyedBy(names, records, f, key) == KeyedBy(names, records[..k], f, key)
    decreases |records| - k
  {
    if k < |records| {
      var n := |records| - 1;
      assert records[..n][..k] == records[..k];
      KeyedByFailurePersists(names, records[..n], f, key, k);
    } else {
      assert records[..k] == records;
    }
  }

  /** A successful build holds one entry per record: each record's value under
      its key, and nothing else. */
  lemma {:induction false} KeyedByContents<K, V>(names: seq<string>, records: seq<seq<Value>>, f: Row -> Result<V, Error>, key: (Row, V) -> Result<K, Error>, vs: seq<V>)
    requires ProjectAll(names, records, f) == Success(vs) && KeysDefined(names, records, vs, key)
    requires KeyedBy(names, records, f, key).Success?
    ensures |KeyedBy(names, records, f, key).value| == |records|
    ensures IndexesRecords(KeyedBy(names, records, f, key).value, names, records, vs, key)
    decreases |records|
  {
    if records == [] {
      return;
    }
    var n := |records| - 1;
    var prefix, pvs := records[..n], vs[..n];
    ProjectAllPrefix(names, records, f, vs, n);
    KeysPrefix(names, records, vs, key, n);
    KeyedByContents(names, prefix, f, key, pvs);
    assert f(Row(names, records[n])) == Success(vs[n]);
    var k := KeyAt(names, records, vs, key, n);
    var pre := KeyedBy(names, prefix, f, key).value;
    assert k !in pre && KeyedBy(names, records, f, key) == Success(pre[k := vs[n]]);
    IndexesExtend(pre, names, records, vs, key);
  }

  /** The keys of a prefix of the records are the first keys of all of them. */
  lemma KeysPrefix<K, V>(names: seq<string>, records: seq<seq<Value>>, vs: seq<V>, key: (Row, V) -> Result<K, Error>, n: nat)
    requires |records| == |vs| && KeysDefined(names, records, vs, key)
    requires n <= |records|
    ensures KeysDefined(names, records[..n], vs[..n], key)
    ensures forall i :: 0 <= i < n ==> KeyAt(names, records[..n], vs[..n], key, i) == KeyAt(names, records, vs, key, i)
  {
    assert forall i :: 0 <= i < n ==> records[..n][i] == records[i] && vs[..n][i] == vs[i];
  }

  /** Adding the last record's entry under a fresh key extends the index of the
      earlier records to an index of all of them. */
  lemma IndexesExtend<K, V>(pre: map<K, V>, names: seq<string>, records: seq<seq<Value>>, vs: seq<V>, key: (Row, V) -> Result<K, Error>)
    requires 0 < |records| == |vs| && KeysDefined(names, records, vs, key)
    requires IndexesRecords(pre, names, records[..|records| - 1], vs[..|records| - 1], key)
    requires KeyAt(names, records, vs, key, |records| - 1) !in pre
    ensures IndexesRecords(pre[KeyAt(names, records, vs, key, |records| - 1) := vs[|records| - 1]], names, records, vs, key)
  {
    var n := |records| - 1;
    var prefix, pvs := records[..n], vs[..n];
    var k := KeyAt(names, records, vs, key, n);
    var m := pre[k := vs[n]];
    forall i | 0 <= i < n ensures KeyAt(names, records, vs, key, i) in m && m[KeyAt(names, records, vs, key, i)] == vs[i] {
      assert KeyAt(names, prefix, pvs, key, i) == KeyAt(names, records, vs, key, i);
    }
    forall k' | k' in m ensures exists i :: 0 <= i < |records| && KeyAt(names, records, vs, key, i) == k' {
      if k' != k {
        var i :| 0 <= i < n && KeyAt(names, prefix, pvs, key, i) == k';
        assert KeyAt(names, records, vs, key, i) == k';
      }
    }
  }

  /** When every projection and key selector returns, the build succeeds
      exactly when no key repeats an earlier record's key; otherwise
      Dictionary.Add throws DuplicateKey. */
  lemma {:induction false} KeyedByOutcome<K, V>(names: seq<string>, records: seq<seq<Value>>, f: Row -> Result<V, Error>, key: (Row, V) -> Result<K, Error>, vs: seq<V>)
    requires ProjectAll(names, records, f) == Success(vs) && KeysDefined(names, records, vs, key)
    ensures KeyedBy(names, records, f, key).Success? <==> DistinctKeys(names, records, vs, key)
    ensures KeyedBy(names, records, f, key).Failure? ==> KeyedBy(names, records, f, key).error == DuplicateKey
    decreases |records|
  {
    if records == [] {
      return;
    }
    var n := |records| - 1;
    var prefix, pvs := records[..n], vs[..n];
    ProjectAllPrefix(names, records, f, vs, n);
    KeysPrefix(names, records, vs, key, n);
    KeyedByOutcome(names, prefix, f, key, pvs);
    assert f(Row(names, records[n])) == Success(vs[n]);
    var pre := KeyedBy(names, prefix, f, key);
    if pre.Failure? {
      DistinctPrefix(names, records, vs, key);
    } else {
      KeyedByContents(names, prefix, f, key, pvs);
      DistinctExtend(pre.value, names, records, vs, key);
    }
  }

  /** Distinct keys stay distinct on the records before the last. */
  lemma DistinctPrefix<K, V>(names: seq<string>, records: seq<seq<Value>>, vs: seq<V>, key: (Row, V) -> Result<K, Error>)
    requires 0 < |records| == |vs| && KeysDefined(names, records, vs, key)
    ensures KeysDefined(names, records[..|records| - 1], vs[..|records| - 1], key)
    ensures DistinctKeys(names, records, vs, key) ==> DistinctKeys(names, records[..|records| - 1], vs[..|records| - 1], key)
  {
    KeysPrefix(names, records, vs, key, |records| - 1);
  }

  /** Given the index of the earlier records, all keys are distinct exactly
      when the earlier ones are and the last key is not yet in the index. */
  lemma DistinctExtend<K, V>(pre: map<K, V>, names: seq<string>, records: seq<seq<Value>>, vs: seq<V>, key: (Row, V) -> Result<K, Error>)
    requires 0 < |records| == |vs| && KeysDefined(names, records, vs, key)
    requires KeysDefined(names, records[..|records| - 1], vs[..|records| - 1], key)
    requires IndexesRecords(pre, names, records[..|records| - 1], vs[..|records| - 1], key)
    ensures DistinctKeys(names, records, vs, key) <==>
      DistinctKeys(names, records[..|records| - 1], vs[..|records| - 1], key) && KeyAt(names, records, vs, key, |records| - 1) !in pre
  {
    var n := |records| - 1;
    var prefix, pvs := records[..n], vs[..n];
    var k := KeyAt(names, records, vs, key, n);
    KeysPrefix(names, records, vs, key, n);
    if k in pre {
      var i :| 0 <= i < n && KeyAt(names, prefix, pvs, key, i) == k;
      assert KeyAt(names, records, vs, key, i) == KeyAt(names, records, vs, key, n);
    } else if DistinctKeys(names, prefix, pvs, key) {
      assert forall i :: 0 <= i < n ==> KeyAt(names, records, vs, key, i) in pre;
    }
  }

  /** The build succeeds only when every projection and every key selector
      returned; together with KeyedByOutcome this settles every successful build. */
  lemma {:induction false} KeyedByNeedsAll<K, V>(names: seq<string>, records: seq<seq<Value>>, f: Row -> Result<V, Error>, key: (Row, V) -> Result<K, Error>)
    ensures KeyedBy(names, records, f, key).Success? ==>
      ProjectAll(names, records, f).Success? && KeysDefined(names, records, ProjectAll(names, records, f).value, key)
    decreases |records|
  {
    if records != [] && KeyedBy(names, records, f, key).Success? {
      var n := |records| - 1;
      var prefix := records[..n];
      KeyedByNeedsAll(names, prefix, f, key);
      var pvs := ProjectAll(names, prefix, f).value;
      var v := f(Row(names, records[n])).value;
      assert ProjectAll(names, records, f) == Success(pvs + [v]);
      assert forall i :: 0 <= i < n ==> prefix[i] == records[i] && (pvs + [v])[i] == pvs[i];
    }
  }

  /** Projecting one more record extends the projection of the records before it. */
  lemma ProjectAllExtend<R>(names: seq<string>, records: seq<seq<Value>>, start: nat, done: nat, f: Row -> Result<R, Error>)
    requires start <= done < |records|
    ensures ProjectAll(names, records[start..done + 1], f) ==
      match ProjectAll(names, records[start..done], f)
      case Failure(e) => Failure(e)
      case Success(vs) =>
        match f(Row(names, records[done]))
        case Failure(e) => Failure(e)
        case Success(v) => Success(vs + [v])
  {
    var upTo := records[start..done + 1];
    assert upTo[..done - start] == records[start..done];
    assert upTo[done - start] == records[done];
  }

  /** One turn of the ToList loop whose projection throws: that exception is
      the outcome for all the remaining records. */
  lemma ProjectAllStop<R>(names: seq<string>, records: seq<seq<Value>>, start: nat, done: nat, f: Row -> Result<R, Error>, list: seq<R>, e: Error)
    requires start <= done < |records|
    requires ProjectAll(names, records[start..done], f) == Success(list)
    requires f(Row(names, records[done])) == Failure(e)
    ensures ProjectAll(names, records[start..], f) == Failure(e)
  {
    ProjectAllExtend(names, records, start, done, f);
    assert records[start..][..done + 1 - start] == records[start..done + 1];
    ProjectAllFailurePersists(names, records[start..], f, done + 1 - start);
  }

  /** One turn of the ToList loop whose projection returns: the list grows by its value. */
  lemma ProjectAllAdd<R>(names: seq<string>, records: seq<seq<Value>>, start: nat, done: nat, f: Row -> Result<R, Error>, list: seq<R>, v: R)
    requires start <= done < |records|
    requires ProjectAll(names, records[start..done], f) == Success(list)
    requires f(Row(names, records[done])) == Success(v)
    ensures ProjectAll(names, records[start..done + 1], f) == Success(list + [v])
  {
    ProjectAllExtend(names, records, start, done, f);
  }

  /** Reading the remaining records one by one and projecting each with `f`.
      The shared loop of ToList. */
  method Collect<R>(reader: DataReader, f: Row -> Result<R, Error>) returns (r: Result<seq<R>, Error>)
    requires reader.Valid()
    modifies reader
    ensures reader.Valid()
    ensures old(reader.consumed) <= reader.consumed
    ensures r == ProjectAll(reader.names, reader.records[old(reader.consumed)..], f)
    ensures r.Success? ==> reader.consumed == |reader.records| && !reader.hasRow
  {
    ghost var start, names, records := reader.consumed, reader.names, reader.records;
    var list: seq<R> := [];
    var more := reader.Read();
    while more
      invariant reader.Valid() && more == reader.hasRow
      invariant start <= reader.consumed
      invariant more ==> start < reader.consumed && ProjectAll(names, records[start..reader.consumed - 1], f) == Success(list)
      invariant !more ==> reader.consumed == |records| && ProjectAll(names, records[start..], f) == Success(list)
      decreases |records| - reader.consumed, more
    {
      ghost var done := reader.consumed - 1;
      var row := reader.Current().value;
      assert row == Row(names, records[done]);
      var v := f(row);
      if v.Failure? {
        ProjectAllStop(names, records, start, done, f, list, v.error);
        return Failure(v.error);
      }
      ProjectAllAdd(names, records, start, done, f, list, v.value);
      list := list + [v.value];
      more := reader.Read();
      if !more {
        assert records[start..] == records[start..done + 1];
      }
    }
    r := Success(list);
  }

  /** Adding one more record extends the dictionary of the records before it. */
  lemma KeyedByExtend<K, V>(names: seq<string>, records: seq<seq<Value>>, start: nat, done: nat, f: Row -> Result<V, Error>, key: (Row, V) -> Result<K, Error>)
    requires start <= done < |records|
    ensures KeyedBy(names, records[start..done + 1], f, key) ==
      match KeyedBy(names, records[start..done], f, key)
      case Failure(e) => Failure(e)
      case Success(m) => AddRecord(m, Row(names, records[done]), f, key)
  {
    var upTo := records[start..done + 1];
    assert upTo[..done - start] == records[start..done];
    assert upTo[done - start] == records[done];
  }

  /** One turn of the ToDictionary loop that throws: the exception of that
      record is the outcome for all the remaining records. */
  lemma KeyedByStop<K, V>(names: seq<string>, records: seq<seq<Value>>, start: nat, done: nat, f: Row -> Result<V, Error>, key: (Row, V) -> Result<K, Error>, m: map<K, V>, e: Error)
    requires start <= done < |records|
    requires KeyedBy(names, records[start..done], f, key) == Success(m)
    requires AddRecord(m, Row(names, records[done]), f, key) == Failure(e)
    ensures KeyedBy(names, records[start..], f, key) == Failure(e)
  {
    KeyedByExtend(names, records, start, done, f, key);
    assert records[start..][..done + 1 - start] == records[start..done + 1];
    KeyedByFailurePersists(names, records[start..], f, key, done + 1 - start);
  }

  /** Reading the remaining records one by one, projecting each with `f` and
      adding the value under its key. The shared loop of both ToDictionary overloads. */
  method Fill<K, V>(reader: DataReader, f: Row -> Result<V, Error>, key: (Row, V) -> Result<K, Error>) returns (r: Result<map<K, V>, Error>)
    requires reader.Valid()
    modifies reader
    ensures reader.Valid()
    ensures old(reader.consumed) <= reader.consumed
    ensures r == KeyedBy(reader.names, reader.records[old(reader.consumed)..], f, key)
    ensures r.Success? ==> reader.consumed == |reader.records| && !reader.hasRow
  {
    ghost var start, names, records := reader.consumed, reader.names, reader.records;
    var dictionary: map<K, V> := map[];
    var more := reader.Read();
    while more
      invariant reader.Valid() && more == reader.hasRow
      invariant start <= reader.consumed
      invariant more ==> start < reader.consumed && KeyedBy(names, records[start..reader.consumed - 1], f, key) == Success(dictionary)
      invariant !more ==> reader.consumed == |records| && KeyedBy(names, records[start..], f, key) == Success(dictionary)
      decreases |records| - reader.consumed, more
    {
      ghost var done := reader.consumed - 1;
      var row := reader.Current().value;
      assert row == Row(names, records[done]);
      var next := AddRecord(dictionary, row, f, key);
      if next.Failure? {
        KeyedByStop(names, records, start, done, f, key, dictionary, next.error);
        return Failure(next.error);
      }
      KeyedByExtend(names, records, start, done, f, key);
      dictionary := next.value;
      more := reader.Read();
      if !more {
        assert records[start..] == records[start..done + 1];
      }
    }
    r := Success(dictionary);
  }

  /** ToList: the projections of the records still to be read, in order.
      A null projection or reader throws before the reader is touched. */
  method ToList<R>(reader: DataReader?, projection: Option<Row -> Result<R, Error>>) returns (r: Result<seq<R>, Error>)
    requires reader != null ==> reader.Valid()
    modifies reader
    ensures reader != null ==> reader.Valid()
    ensures projection.None? ==> r == Failure(ArgumentNull("function"))
    ensures projection.Some? && reader == null ==> r == Failure(ArgumentNull("reader"))
    ensures reader != null && projection.None? ==> unchanged(reader)
    ensures reader != null && projection.Some? ==>
      && r == ProjectAll(reader.names, reader.records[old(reader.consumed)..], projection.value)
      && (r.Success? ==> reader.consumed == |reader.records|)
  {
    if projection.None? {
      return Failure(ArgumentNull("function"));
    }
    if reader == null {
      return Failure(ArgumentNull("reader"));
    }
    r := Collect(reader, projection.value);
  }

  /** ToDictionary keyed on the projected value: keySelector(value) for every
      record still to be read. Null checks run on the projection, reader, then keySelector. */
  method ToDictionary<K, V>(reader: DataReader?, projection: Option<Row -> Result<V, Error>>, keySelector: Option<V -> Result<K, Error>>)
    returns (r: Result<map<K, V>, Error>)
    requires reader != null ==> reader.Valid()
    modifies reader
    ensures reader != null ==> reader.Valid()
    ensures projection.None? ==> r == Failure(ArgumentNull("function"))
    ensures projection.Some? && reader == null ==> r == Failure(ArgumentNull("reader"))
    ensures projection.Some? && reader != null && keySelector.None? ==> r == Failure(ArgumentNull("keySelector"))
    ensures reader != null && (projection.None? || keySelector.None?) ==> unchanged(reader)
    ensures reader != null && projection.Some? && keySelector.Some? ==>
      && r == KeyedBy(reader.names, reader.records[old(reader.consumed)..], projection.value, ValueKey(keySelector.value))
      && (r.Success? ==> reader.consumed == |reader.records|)
  {
    if projection.None? {
      return Failure(ArgumentNull("function"));
    }
    if reader == null {
      return Failure(ArgumentNull("reader"));
    }
    if keySelector.None? {
      return Failure(ArgumentNull("keySelector"));
    }
    r := Fill(reader, projection.value, ValueKey(keySelector.value));
  }

  /** ToDictionary keyed on the current record: keySelector(record), applied
      after the record's value has been projected. */
  method ToDictionaryByRow<K, V>(reader: DataReader?, projection: Option<Row -> Result<V, Error>>, keySelector: Option<Row -> Result<K, Error>>)
    returns (r: Result<map<K, V>, Error>)
    requires reader != null ==> reader.Valid()
    modifies reader
    ensures reader != null ==> reader.Valid()
    ensures projection.None? ==> r == Failure(ArgumentNull("function"))
    ensures projection.Some? && reader == null ==> r == Failure(ArgumentNull("reader"))
    ensures projection.Some? && reader != null && keySelector.None? ==> r == Failure(ArgumentNull("keySelector"))
    ensures reader != null && (projection.None? || keySelector.None?) ==> unchanged(reader)
    ensures reader != null && projection.Some? && keySelector.Some? ==>
      && r == KeyedBy(reader.names, reader.records[old(reader.consumed)..], projection.value, RowKey(keySelector.value))
      && (r.Success? ==> reader.consumed == |reader.records|)
  {
    if projection.None? {
      return Failure(ArgumentNull("function"));
    }
    if reader == null {
      return Failure(ArgumentNull("reader"));
    }
    if keySelector.None? {
      return Failure(ArgumentNull("keySelector"));
    }
    r := Fill(reader, projection.value, RowKey(keySelector.value));
  }

  /** The key of a record taken from its projected value. */
  function ValueKey<K, V>(keySelector: V -> Result<K, Error>): (key: (Row, V) -> Result<K, Error>)
  {
    (row: Row, v: V) => keySelector(v)
  }

  /** The key of a record taken from the record itself. */
  function RowKey<K, V>(keySelector: Row -> Result<K, Error>): (key: (Row, V) -> Result<K, Error>)
  {
    (row: Row, v: V) => keySelector(row)
  }
}
