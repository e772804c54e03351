/** BasicReader: the view of the current record that ToList and ToDictionary
    hand to their projections. It adds fast paths for string and int reads and
    resolves column names through a case-insensitive name-to-ordinal map that it
    builds the first time a name is looked up. */
module BasicReaders {
  import opened Wrappers
  import opened Strings
  import opened ClrTypes
  import opened DataReaders
  import DataReaderExtensions

  // ---------------------------------------------------------------------------
  // Reads by ordinal

  /** Get<T>(ordinal, defaultValue) on a record: a null cell gives the default
      whatever T is; a string target reads GetString, an int target GetInt32,
      and every other target the extension Get<T>(ordinal). */
  function GetAt(lib: DataReaderExtensions.Library, row: Row, ordinal: int, ty: Target, defaultValue: Value): (r: Result<Value, Error>)
    requires HasType(defaultValue, ty)
    ensures r.Success? ==> HasType(r.value, ty)
    ensures CellAt(row, ordinal).Failure? ==> r == Failure(IndexOutOfRange)
    ensures CellAt(row, ordinal) == Success(Null) ==> r == Success(defaultValue)
  {
    match CellAt(row, ordinal)
    case Failure(e) => Failure(e)
    case Success(cell) =>
      if cell.Null? then Success(defaultValue)
      else if ty.Text? then
        match GetString(cell)
        case Success(s) => Success(Str(s))
        case Failure(e) => Failure(e)
      else if ty == Struct(Int32) then
        match GetInt32(cell)
        case Success(n) => Success(I32(n))
        case Failure(e) => Failure(e)
      else
        DataReaderExtensions.Get(lib, Some(row), ordinal, ty)
  }

  /** The fast paths change the outcome in one case only: an int target read
      from a cell that holds something other than an int, where GetInt32
      throws InvalidCastException and the extension method would have
      converted. Everywhere else BasicReader.Get agrees with the extension
      Get<T>(ordinal, defaultValue). */
  lemma GetAtAgreesWithExtension(lib: DataReaderExtensions.Library, row: Row, ordinal: int, ty: Target, defaultValue: Value)
    requires HasType(defaultValue, ty)
    ensures var cell := CellAt(row, ordinal);
      if ty == Struct(Int32) && cell.Success? && cell.value != Null && !cell.value.I32?
      then GetAt(lib, row, ordinal, ty, defaultValue) == Failure(InvalidCast)
      else GetAt(lib, row, ordinal, ty, defaultValue) == DataReaderExtensions.GetOr(lib, Some(row), ordinal, ty, defaultValue)
  {
  }

  // ---------------------------------------------------------------------------
  // The ordinal cache

  /** The map GetOrdinal's loop builds: each column's name, folded to upper
      case as StringComparer.OrdinalIgnoreCase compares it, mapped to the
      column's position. Dictionary.Add throws on the first name that equals
      an earlier one ignoring case. */
  function OrdinalMap(names: seq<string>): (r: Result<map<string, nat>, Error>)
    ensures r.Success? ==> |r.value| == |names|
    ensures r.Success? ==> forall key :: key in r.value ==> r.value[key] < |names|
    ensures r.Failure? ==> r.error == DuplicateKey
    decreases |names|
  {
    if names == [] then Success(map[])
    else
      var n := |names| - 1;
      match OrdinalMap(names[..n])
      case Failure(e) => Failure(e)
      case Success(m) =>
        var key := Fold(names[n]);
        if key in m then Failure(DuplicateKey) else Success(m[key := n])
  }

  /** No two column names are equal ignoring case. */
  ghost predicate DistinctIgnoringCase(names: seq<string>) {
    forall i, j :: 0 <= i < j < |names| ==> !EqualsIgnoreCase(names[i], names[j])
  }

  /** `m` maps each column's folded name to the column's position, and holds nothing else. */
  ghost predicate IndexesColumns(m: map<string, nat>, names: seq<string>) {
    && (forall n :: 0 <= n < |names| ==> Fold(names[n]) in m)
    && (forall key :: key in m ==> m[key] < |names| && Fold(names[m[key]]) == key)
  }

  /** A completed build files every column under its own name at its own
      position, holds nothing else, and has one entry per column. */
  lemma {:induction false} OrdinalMapIndexes(names: seq<string>)
    requires OrdinalMap(names).Success?
    ensures IndexesColumns(OrdinalMap(names).value, names)
    ensures |OrdinalMap(names).value| == |names|
    decreases |names|
  {
    if names != [] {
      var n := |names| - 1;
      OrdinalMapIndexes(names[..n]);
      IndexesExtend(OrdinalMap(names[..n]).value, names);
    }
  }

  /** The build succeeds exactly when the names are distinct ignoring case;
      otherwise Dictionary.Add throws DuplicateKey. */
  lemma {:induction false} OrdinalMapOutcome(names: seq<string>)
    ensures OrdinalMap(names).Success? <==> DistinctIgnoringCase(names)
    ensures OrdinalMap(names).Failure? ==> OrdinalMap(names).error == DuplicateKey
    decreases |names|
  {
    if names == [] {
      return;
    }
    var n := |names| - 1;
    OrdinalMapOutcome(names[..n]);
    match OrdinalMap(names[..n])
    case Failure(_) =>
      DistinctPrefix(names);
    case Success(m) =>
      OrdinalMapIndexes(names[..n]);
      DistinctExtend(m, names);
  }

  /** Names distinct ignoring case stay so without the last one. */
  lemma DistinctPrefix(names: seq<string>)
    requires 0 < |names|
    ensures DistinctIgnoringCase(names) ==> DistinctIgnoringCase(names[..|names| - 1])
  {
    var n := |names| - 1;
    assert forall i :: 0 <= i < n ==> names[..n][i] == names[i];
  }

  /** Given the index of the columns before the last, all names are distinct
      ignoring case exactly when the earlier ones are and the last name's key
      is not yet filed. */
  lemma DistinctExtend(m: map<string, nat>, names: seq<string>)
    requires 0 < |names|
    requires IndexesColumns(m, names[..|names| - 1])
    ensures DistinctIgnoringCase(names) <==>
      DistinctIgnoringCase(names[..|names| - 1]) && Fold(names[|names| - 1]) !in m
  {
    var n := |names| - 1;
    var prefix := names[..n];
    var key := Fold(names[n]);
    assert forall i :: 0 <= i < n ==> prefix[i] == names[i];
    if key in m {
      FoldKeysIgnoreCase(names[m[key]], names[n]);
    } else {
      forall i | 0 <= i < n
        ensures !EqualsIgnoreCase(names[i], names[n])
      {
        FoldKeysIgnoreCase(names[i], names[n]);
      }
    }
  }

  /** Filing the last column under a fresh key extends the index of the columns before it. */
  lemma IndexesExtend(m: map<string, nat>, names: seq<string>)
    requires 0 < |names|
    requires IndexesColumns(m, names[..|names| - 1])
    requires Fold(names[|names| - 1]) !in m
    ensures IndexesColumns(m[Fold(names[|names| - 1]) := |names| - 1], names)
  {
    var n := |names| - 1;
    assert forall i :: 0 <= i < n ==> names[..n][i] == names[i];
  }

  /** The indexer `_ordinals[name]`: the name is folded like the keys; a name
      that is not a key throws KeyNotFoundException. */
  function Resolve(m: map<string, nat>, name: string): (r: Result<nat, Error>)
    ensures r.Success? <==> Fold(name) in m
    ensures r.Failure? ==> r.error == KeyNotFound
  {
    if Fold(name) in m then Success(m[Fold(name)]) else Failure(KeyNotFound)
  }

  /** GetOrdinal(name) as a function of the column names: the build's error,
      or the lookup in the map it built. */
  function CachedOrdinal(names: seq<string>, name: string): (r: Result<nat, Error>)
    ensures r.Success? ==> r.value < |names|
    ensures OrdinalMap(names).Failure? ==> r == Failure(DuplicateKey)
    ensures OrdinalMap(names).Success? && r.Failure? ==> r.error == KeyNotFound
  {
    match OrdinalMap(names)
    case Failure(e) => Failure(e)
    case Success(m) => Resolve(m, name)
  }

  /** What GetOrdinal promises: with names distinct ignoring case, a name
      resolves exactly when some column equals it ignoring case, and then to
      that column; colliding names throw DuplicateKey, a missing name
      KeyNotFound. */
  lemma CachedOrdinalSpec(names: seq<string>, name: string)
    ensures var r := CachedOrdinal(names, name);
      && (!DistinctIgnoringCase(names) ==> r == Failure(DuplicateKey))
      && (DistinctIgnoringCase(names) ==>
            (r.Success? <==> exists n :: 0 <= n < |names| && EqualsIgnoreCase(names[n], name)))
      && (r.Success? ==> r.value < |names| && EqualsIgnoreCase(names[r.value], name))
      && (DistinctIgnoringCase(names) && r.Failure? ==> r.error == KeyNotFound)
  {
    OrdinalMapOutcome(names);
    var r := CachedOrdinal(names, name);
    if OrdinalMap(names).Success? {
      OrdinalMapIndexes(names);
    }
    if r.Success? {
      var m := OrdinalMap(names).value;
      FoldKeysIgnoreCase(names[m[Fold(name)]], name);
    } else if DistinctIgnoringCase(names) {
      forall n | 0 <= n < |names|
        ensures !EqualsIgnoreCase(names[n], name)
      {
        FoldKeysIgnoreCase(names[n], name);
      }
    }
  }

  /** Names that differ only in letter case resolve to the same ordinal. */
  lemma CachedOrdinalIgnoresCase(names: seq<string>, a: string, b: string)
    requires EqualsIgnoreCase(a, b)
    ensures CachedOrdinal(names, a) == CachedOrdinal(names, b)
  {
    FoldKeysIgnoreCase(a, b);
  }

  /** When the names are distinct ignoring case, the cache resolves a name to
      the same column as the reader's own GetOrdinal, which the extension
      methods use. Both lookups fold ASCII letters here; where the reader's
      culture comparison equates names that ordinal ASCII folding does not
      (full-width letters, kana, culture-specific casing), the two differ. */
  lemma CachedOrdinalMatchesReader(names: seq<string>, name: string)
    requires DistinctIgnoringCase(names)
    ensures var r := CachedOrdinal(names, name);
      && (r.Success? <==> GetOrdinal(names, name).Success?)
      && (r.Success? ==> r.value == GetOrdinal(names, name).value)
  {
    CachedOrdinalSpec(names, name);
  }

  /** A lookup in another case finds its column, and two columns whose names
      differ only in case make every lookup throw. */
  lemma UserIdExample()
    ensures CachedOrdinal(["Id", "UserId", "Name"], "userid") == Success(1)
    ensures CachedOrdinal(["Id", "UserId", "userID"], "Id") == Failure(DuplicateKey)
  {
    var names := ["Id", "UserId", "Name"];
    assert names[..2] == ["Id", "UserId"] && names[..2][..1] == ["Id"] && names[..1][..0] == [];
    assert Fold("Id") == "ID" && Fold("UserId") == "USERID" && Fold("Name") == "NAME" && Fold("userid") == "USERID";
    assert OrdinalMap(["Id"]) == Success(map["ID" := 0]);
    assert OrdinalMap(["Id", "UserId"]) == Success(map["ID" := 0, "USERID" := 1]);
    assert OrdinalMap(names) == Success(map["ID" := 0, "USERID" := 1, "NAME" := 2]);
    var clash := ["Id", "UserId", "userID"];
    assert clash[..2] == names[..2];
    assert Fold("userID") == "USERID";
  }

  // ---------------------------------------------------------------------------
  // The reader object

  /** BasicReader: the reader it wraps and the lazily built ordinal map. */
  class BasicReader {
    const reader: DataReader
    /** `_ordinals`: None until a build has completed. */
    var ordinals: Option<map<string, nat>>
    /** How many column names have been read with GetName. */
    ghost var namesRead: nat

    ghost predicate Valid()
      reads this, reader
    {
      && reader.Valid()
      && (ordinals.Some? ==> OrdinalMap(reader.names) == Success(ordinals.value))
    }

    constructor (reader: DataReader)
      requires reader.Valid()
      ensures Valid()
      ensures this.reader == reader && ordinals == None && namesRead == 0
    {
      this.reader := reader;
      ordinals := None;
      namesRead := 0;
    }

    /** GetOrdinal(name): builds the map when none has been built, keeps it
        only if the build completes, then looks the name up. Once the map
        exists no name is read again. */
    method GetOrdinal(name: string) returns (r: Result<nat, Error>)
      requires Valid()
      modifies this
      ensures Valid()
      ensures r == CachedOrdinal(reader.names, name)
      ensures ordinals == (if OrdinalMap(reader.names).Success? then Some(OrdinalMap(reader.names).value) else None)
      ensures old(ordinals).Some? ==> ordinals == old(ordinals) && namesRead == old(namesRead)
      ensures old(ordinals).None? && ordinals.Some? ==> namesRead == old(namesRead) + |reader.names|
    {
      if ordinals.None? {
        var col: map<string, nat> := map[];
        var names := reader.names;
        for n := 0 to |names|
          invariant ordinals == None
          invariant OrdinalMap(names[..n]) == Success(col)
          invariant namesRead == old(namesRead) + n
        {
          var key := Fold(names[n]);
          namesRead := namesRead + 1;
          assert names[..n + 1][..n] == names[..n];
          if key in col {
            OrdinalMapFailurePersists(names, n + 1);
            return Failure(DuplicateKey);
          }
          col := col[key := n];
        }
        assert names[..|names|] == names;
        ordinals := Some(col);
      }
      r := Resolve(ordinals.value, name);
    }

    /** Get<T>(ordinal, defaultValue) on the current record. */
    function Get(lib: DataReaderExtensions.Library, ordinal: int, ty: Target, defaultValue: Value): (r: Result<Value, Error>)
      reads reader
      requires reader.Valid() && HasType(defaultValue, ty)
      ensures !reader.hasRow ==> r == Failure(InvalidOperation)
      ensures reader.hasRow ==> r == GetAt(lib, reader.Current().value, ordinal, ty, defaultValue)
    {
      match reader.Current()
      case Failure(e) => Failure(e)
      case Success(row) => GetAt(lib, row, ordinal, ty, defaultValue)
    }

    /** TryGet<T>(ordinal): the extension TryGet on the wrapped reader. */
    function TryGet(lib: DataReaderExtensions.Library, ordinal: int, ty: Target): (r: Result<DataReaderExtensions.Lookup, Error>)
      reads reader
      requires reader.Valid()
      ensures !reader.hasRow ==> r == Failure(InvalidOperation)
      ensures reader.hasRow ==> r == DataReaderExtensions.TryGet(lib, Some(reader.Current().value), ordinal, ty)
    {
      match reader.Current()
      case Failure(e) => Failure(e)
      case Success(row) => DataReaderExtensions.TryGet(lib, Some(row), ordinal, ty)
    }

    /** Get<T>(name): the ordinal of the name through the cache, then
        Get<T>(ordinal) with default(T). */
    method GetByName(lib: DataReaderExtensions.Library, name: string, ty: Target) returns (r: Result<Value, Error>)
      requires Valid()
      modifies this
      ensures Valid()
      ensures ordinals == (if OrdinalMap(reader.names).Success? then Some(OrdinalMap(reader.names).value) else None)
      ensures r == match CachedOrdinal(reader.names, name)
                   case Failure(e) => Failure(e)
                   case Success(i) => Get(lib, i, ty, Default(ty))
    {
      var ordinal := GetOrdinal(name);
      if ordinal.Failure? {
        return Failure(ordinal.error);
      }
      r := Get(lib, ordinal.value, ty, Default(ty));
    }

    /** TryGet<T>(name): the ordinal of the name through the cache, then the
        extension TryGet at that ordinal. */
    method TryGetByName(lib: DataReaderExtensions.Library, name: string, ty: Target) returns (r: Result<DataReaderExtensions.Lookup, Error>)
      requires Valid()
      modifies this
      ensures Valid()
      ensures ordinals == (if OrdinalMap(reader.names).Success? then Some(OrdinalMap(reader.names).value) else None)
      ensures r == match CachedOrdinal(reader.names, name)
                   case Failure(e) => Failure(e)
                   case Success(i) => TryGet(lib, i, ty)
    {
      var ordinal := GetOrdinal(name);
      if ordinal.Failure? {
        return Failure(ordinal.error);
      }
      r := TryGet(lib, ordinal.value, ty);
    }
  }

  /** A collision in the first `k` names is the failure of the whole build. */
  lemma {:induction false} OrdinalMapFailurePersists(names: seq<string>, k: nat)
    requires k <= |names|
    requires OrdinalMap(names[..k]).Failure?
    ensures OrdinalMap(names) == OrdinalMap(names[..k])
    decreases |names| - k
  {
    if k < |names| {
      var n := |names| - 1;
      assert names[..n][..k] == names[..k];
      OrdinalMapFailurePersists(names[..n], k);
    } else {
      assert names[..k] == names;
    }
  }
}
