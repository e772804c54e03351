# NetIntegration typed data access and LocalDB lifecycle, in Dafny

This project models three pieces of the NetIntegration testing library:

- **Typed reads.** The extension methods `TryGet<T>` and `Get<T>` on `IDataReader` read one cell of the current record as a `T`. They are a first-match cascade:
  - a null cell;
  - a `string` target;
  - `Nullable<>` unwrapping;
  - the refusal of reference types;
  - a value that is already assignable;
  - three enumeration cases;
  - a general conversion.

  `BasicReader.Get` adds fast paths for `string` and `int` targets. These are pure functions over a closed type tag (`ClrTypes.Target`) and boxed values (`ClrTypes.Value`). `Convert.ChangeType`, `Enum.Parse` and `ToString` stay uninterpreted fields of a `Library` value.
- **Materialisation.**
  - `ToList` and both `ToDictionary` overloads are `while (reader.Read())` loops over a `DataReaders.DataReader` object. Each loop is proved against a specification function: `ProjectAll` for the list and `KeyedBy` for the dictionary.
  - `BasicReader` is a class whose `ordinals` field holds the lazily built, case-insensitive name-to-ordinal map. Its `GetOrdinal` method is the `for` loop that fills the map, proved against `OrdinalMap`.
- **The database lifecycle.** `DatabaseImpl` covers grant, deploy, detach, and commands run on a connection opened per call. `DatabaseManager` covers the connection string and the lazily created database.
  - Every call into SqlClient, the DAC services, SMO or the file system goes through a `Host` object. The host appends the call to a ghost log and asks a fixed fault schedule whether the call throws.
  - Each operation is a method proved to produce the calls, attached databases and outcome of a specification function (a `Run`). Ordering and clean-up are lemmas about those functions.

Modules, one per file:
- `Wrappers` (Option, Result)
- `Strings` (ordinal `Contains`, `Replace`, OrdinalIgnoreCase folding, `IsNullOrWhiteSpace`)
- `ClrTypes`
- `DataReaders`
- `DataReaderExtensions`
- `BasicReaders`
- `DatabaseManagement`

Three behaviours of the code that a reader might not expect:
- **Null check before the cast check.** A null cell is "not found" with `default(T)` even for a reference type `T` that a non-null cell would be refused for. The null check comes before the `InvalidCastException` check.
- **The detach error replaces the deploy error.** When both the deploy and the detach throw, C# `finally` semantics apply: only the detach's exception leaves `DeployLocalDB`. The two are not both observable.
- **Duplicate column names throw.** Two columns whose names are equal ignoring case make `Dictionary.Add` throw during the cache build. No occurrence wins. The cache stays unbuilt, so the next lookup builds it again.

Three consequences of the code as written are proved rather than corrected:
- A connection string that attaches a file without an Initial Catalog. The deploy goes to `connection.Database`, the database the server attached. The detach looks up the empty Initial Catalog, finds nothing and leaves the file attached (`DeployLocalLeavesAttached`).
- A `Nullable<E>` enumeration target read from a string cell hands `typeof(Nullable<E>)` to `Enum.Parse`, so it always throws.
- A `Nullable<X>` target whose value needs converting hands `typeof(Nullable<X>)` to `Convert.ChangeType`, so it always throws `InvalidCastException`.

The last two rest on documented .NET behaviour that the model writes out: `Enum.Parse` rejects a type that is not an enumeration, and `Convert.ChangeType` rejects a `Nullable<>` conversion type.

## Model

| member | source | states |
|---|---|---|
| ClrTypes.Default | NetIntegration.Testing/Database/IDataReaderExtensions.cs:155 | default(T) is a legal value of T, and it is null exactly when T is not a non-nullable value type |
| DataReaders.IndexOfName | NetIntegration.Testing/Database/IDataReaderExtensions.cs:143 | the index found is the first column whose name matches; None means no column matches |
| DataReaders.CellAt | NetIntegration.Testing/Database/IDataReaderExtensions.cs:153 | IsDBNull and GetValue reach the cell exactly when the ordinal lies inside the record, and throw IndexOutOfRange otherwise |
| DataReaders.GetString | NetIntegration.Testing/Database/IDataReaderExtensions.cs:161 | GetString succeeds exactly when the cell holds a string, returns that string unconverted, and throws InvalidCast otherwise |
| DataReaders.GetInt32 | NetIntegration.Testing/Database/BasicReader.cs:39 | GetInt32 succeeds exactly when the cell holds an int, returns that int unconverted, and throws InvalidCast otherwise |
| DataReaders.GetOrdinal | NetIntegration.Testing/Database/IDataReaderExtensions.cs:143 | the reader's own name lookup: a name present exactly is found at the first column with exactly that name; otherwise the column found is the first that equals the name ignoring case; it fails exactly when no column equals the name ignoring case, with IndexOutOfRange. The case-insensitive pass is ASCII folding, not the reader's culture comparison |
| DataReaders.DataReader.Read | NetIntegration.Testing/Database/IDataReaderExtensions.cs:29 | Read moves over exactly one record while records remain and returns true; after the last record it returns false and leaves no current record |
| DataReaders.DataReader.Current | NetIntegration.Testing/Database/IDataReaderExtensions.cs:31 | the current record is the last one Read moved over; with no current record, reading throws InvalidOperation |
| DataReaderExtensions.EnumParse | NetIntegration.Testing/Database/IDataReaderExtensions.cs:187 | Enum.Parse succeeds only for a plain enumeration type and then yields a member of that type; any other Type, Nullable<E> included, gives NotAnEnumType |
| DataReaderExtensions.EffectiveType | NetIntegration.Testing/Database/IDataReaderExtensions.cs:165-175 | typeof(T) with Nullable<> unwrapped: None exactly when T is neither a value type nor a Nullable<>, and every non-null value of T is a value of the unwrapped type |
| DataReaderExtensions.ChangeType | NetIntegration.Testing/Database/IDataReaderExtensions.cs:203 | Convert.ChangeType refuses a Nullable<> conversion type with InvalidCast; any other value type goes to the library's conversion |
| DataReaderExtensions.Unbox | NetIntegration.Testing/Database/IDataReaderExtensions.cs:192-194 | an unboxed value has the target type, and an object already of that type comes back unchanged |
| DataReaderExtensions.CastTo | NetIntegration.Testing/Database/IDataReaderExtensions.cs:203 | the cast of a converted object, when it succeeds, has type T |
| DataReaderExtensions.Coerce | NetIntegration.Testing/Database/IDataReaderExtensions.cs:165-206 | a non-null cell read as a non-string T: a successful value has type T; a T that is not a value type after unwrapping Nullable<> throws InvalidCast |
| DataReaderExtensions.TryGet | NetIntegration.Testing/Database/IDataReaderExtensions.cs:146-207 | a null reader throws ArgumentNull("reader"); success needs an existing cell; "found" holds exactly when the cell is not null; the out value always has type T, and is default(T) when not found |
| DataReaderExtensions.TryGetByName | NetIntegration.Testing/Database/IDataReaderExtensions.cs:136-144 | a null reader throws ArgumentNull("reader"); a name the reader's GetOrdinal does not find throws IndexOutOfRange; the out value has type T; the rest is ByNameIsByOrdinal |
| DataReaderExtensions.Get | NetIntegration.Testing/Database/IDataReaderExtensions.cs:103-110 | a null reader throws ArgumentNull("reader"); a null cell gives default(T); a value returned has type T |
| DataReaderExtensions.GetOr | NetIntegration.Testing/Database/IDataReaderExtensions.cs:124-134 | a null reader throws ArgumentNull("reader"); a null cell gives the caller's default; any other value returned has type T |
| DataReaderExtensions.GetByName | NetIntegration.Testing/Database/IDataReaderExtensions.cs:94-101 | a null reader throws ArgumentNull("reader"); an unknown name throws IndexOutOfRange; a value returned has type T |
| DataReaderExtensions.GetByNameOr | NetIntegration.Testing/Database/IDataReaderExtensions.cs:112-122 | a null reader throws ArgumentNull("reader"); an unknown name throws IndexOutOfRange; a value other than the default has type T |
| DataReaderExtensions.NullCellNotFound | NetIntegration.Testing/Database/IDataReaderExtensions.cs:153-157 | a null cell is not found with default(T) for every T; Get returns default(T) and Get with a default returns that default |
| DataReaderExtensions.TextTargetReadsString | NetIntegration.Testing/Database/IDataReaderExtensions.cs:159-163 | a string target reads the cell with GetString and reports it found; a non-string cell throws InvalidCast |
| DataReaderExtensions.NonValueTargetThrows | NetIntegration.Testing/Database/IDataReaderExtensions.cs:172-175 | a reference type other than string is refused with InvalidCast for every non-null cell |
| DataReaderExtensions.AssignableUnchanged | NetIntegration.Testing/Database/IDataReaderExtensions.cs:179-182 | a raw value already of the unwrapped target type is returned unchanged and found |
| DataReaderExtensions.PlainEnumTarget | NetIntegration.Testing/Database/IDataReaderExtensions.cs:183-195 | plain enumeration target: a string is parsed by Enum.Parse, an int is reinterpreted directly, anything else is converted to int with the current culture and then unboxed |
| DataReaderExtensions.NullableEnumTarget | NetIntegration.Testing/Database/IDataReaderExtensions.cs:185-199 | nullable enumeration target: a non-string value is parsed from its ToString text as the inner enumeration; a string value always throws, because Enum.Parse is given Nullable<E> |
| DataReaderExtensions.GeneralConversion | NetIntegration.Testing/Database/IDataReaderExtensions.cs:201-204 | any other value type: Convert.ChangeType to T with the invariant culture, then unboxed to T |
| DataReaderExtensions.NullableConversionThrows | NetIntegration.Testing/Database/IDataReaderExtensions.cs:203 | a Nullable<X> target whose value needs converting always throws InvalidCast, because the conversion targets typeof(T) and not X |
| DataReaderExtensions.EnumMemberFromText | NetIntegration.Testing/Database/IDataReaderExtensions.cs:185-188 | with an Enum.Parse that resolves member names, a text cell holding a member's name reads as that member |
| DataReaderExtensions.GetOrFollowsTryGet | NetIntegration.Testing/Database/IDataReaderExtensions.cs:94-134 | Get with a default returns the default exactly when TryGet reports not found, TryGet's value when found, and TryGet's exception otherwise; Get without a default returns TryGet's value |
| DataReaderExtensions.ByNameIsByOrdinal | NetIntegration.Testing/Database/IDataReaderExtensions.cs:136-144 | the name overloads of TryGet, Get and Get-with-default read the cell at the ordinal that the reader's own GetOrdinal gives for the name |
| DataReaderExtensions.ProjectAll | NetIntegration.Testing/Database/IDataReaderExtensions.cs:26-34 | a successful list has one element per record |
| DataReaderExtensions.ProjectAllSpec | NetIntegration.Testing/Database/IDataReaderExtensions.cs:26-34 | element i of the list is the projection of record i, in fetch order; a failure is the exception of the first record whose projection throws, after every earlier projection returned; the list succeeds when every projection returns |
| DataReaderExtensions.AddRecordAdds | NetIntegration.Testing/Database/IDataReaderExtensions.cs:59-60 | one turn of the dictionary loop: project, select the key, Dictionary.Add; a success adds exactly one new key and keeps every earlier entry; when the projection and key selector return, it throws DuplicateKey exactly when the key is already present |
| DataReaderExtensions.KeyedBy | NetIntegration.Testing/Database/IDataReaderExtensions.cs:54-63 | the dictionary the loop builds, record by record in fetch order; its contents, size and outcome are KeyedByContents, KeyedByOutcome and KeyedByNeedsAll |
| DataReaderExtensions.KeyedByContents | NetIntegration.Testing/Database/IDataReaderExtensions.cs:54-63 | a successful dictionary holds each record's value under that record's key and nothing else, so it has as many entries as there are records |
| DataReaderExtensions.KeyedByOutcome | NetIntegration.Testing/Database/IDataReaderExtensions.cs:57-61 | when every projection and key selector returns, the build succeeds exactly when the keys are pairwise distinct, and otherwise throws DuplicateKey |
| DataReaderExtensions.KeyedByNeedsAll | NetIntegration.Testing/Database/IDataReaderExtensions.cs:57-61 | a successful build means every projection and every key selector returned |
| DataReaderExtensions.ProjectAllFailurePersists | NetIntegration.Testing/Database/IDataReaderExtensions.cs:29-32 | an exception from a record ends the list: later records cannot change it |
| DataReaderExtensions.KeyedByFailurePersists | NetIntegration.Testing/Database/IDataReaderExtensions.cs:57-61 | an exception from a record ends the dictionary build: later records cannot change it |
| DataReaderExtensions.Collect | NetIntegration.Testing/Database/IDataReaderExtensions.cs:29-34 | the loop returns ProjectAll of the records it had still to read; on success it has read them all |
| DataReaderExtensions.Fill | NetIntegration.Testing/Database/IDataReaderExtensions.cs:57-63 | the loop returns KeyedBy of the records it had still to read; on success it has read them all |
| DataReaderExtensions.ToList | NetIntegration.Testing/Database/IDataReaderExtensions.cs:14-35 | a null function throws ArgumentNull("function") before a null reader throws ArgumentNull("reader"), with the reader untouched; otherwise the result is the projection of the remaining records |
| DataReaderExtensions.ToDictionary | NetIntegration.Testing/Database/IDataReaderExtensions.cs:37-64 | null checks run on function, then reader, then keySelector, before any record is read; otherwise the result is KeyedBy with the key taken from the projected value |
| DataReaderExtensions.ToDictionaryByRow | NetIntegration.Testing/Database/IDataReaderExtensions.cs:66-92 | the same null checks; the key is taken from the current record, not from the projected value |
| BasicReaders.GetAt | NetIntegration.Testing/Database/BasicReader.cs:23-43 | a null cell gives the caller's default whatever T is; a missing ordinal throws IndexOutOfRange; a successful value has type T |
| BasicReaders.GetAtAgreesWithExtension | NetIntegration.Testing/Database/BasicReader.cs:32-42 | the fast paths agree with the extension Get with a default, except for an int target on a non-int cell, where GetInt32 throws InvalidCast |
| BasicReaders.OrdinalMap | NetIntegration.Testing/Database/BasicReader.cs:79-84 | a completed build has one entry per column, each mapping to a position below FieldCount; a failed build threw DuplicateKey |
| BasicReaders.CachedOrdinal | NetIntegration.Testing/Database/BasicReader.cs:75-90 | a resolved ordinal is below FieldCount; a failed build throws DuplicateKey; after a completed build the only failure is KeyNotFound |
| BasicReaders.OrdinalMapIndexes | NetIntegration.Testing/Database/BasicReader.cs:79-86 | a completed build files every column under its case-folded name at its own position below FieldCount, holds nothing else, and has one entry per column |
| BasicReaders.OrdinalMapOutcome | NetIntegration.Testing/Database/BasicReader.cs:81-84 | the build completes exactly when no two column names are equal ignoring case; otherwise Add throws DuplicateKey |
| BasicReaders.OrdinalMapFailurePersists | NetIntegration.Testing/Database/BasicReader.cs:81-84 | a collision among the first k names is the outcome of the whole build |
| BasicReaders.Resolve | NetIntegration.Testing/Database/BasicReader.cs:89 | the indexer finds a name exactly when its case-folded form is a key, and otherwise throws KeyNotFound |
| BasicReaders.CachedOrdinalSpec | NetIntegration.Testing/Database/BasicReader.cs:75-90 | colliding names throw DuplicateKey; otherwise a name resolves exactly when some column equals it ignoring case, and then to such a column; a missing name throws KeyNotFound |
| BasicReaders.CachedOrdinalIgnoresCase | NetIntegration.Testing/Database/BasicReader.cs:79-89 | names that differ only in letter case resolve to the same ordinal |
| BasicReaders.CachedOrdinalMatchesReader | NetIntegration.Testing/Database/BasicReader.cs:75-90 | with names distinct ignoring case, the cache resolves a name exactly when the reader's GetOrdinal does, and to the same column, with both lookups folding ASCII letters only |
| BasicReaders.UserIdExample | NetIntegration.Testing/Database/BasicReader.cs:79-89 | "userid" finds column "UserId"; with columns "UserId" and "userID" side by side, even a lookup of "Id" throws DuplicateKey |
| BasicReaders.BasicReader.constructor | NetIntegration.Testing/Database/BasicReader.cs:13-16 | a new BasicReader wraps the reader with no map built |
| BasicReaders.BasicReader.GetOrdinal | NetIntegration.Testing/Database/BasicReader.cs:75-90 | the result is CachedOrdinal of the column names; the map is stored only when the build completes; a stored map is reused without reading any name again; a completed build reads each column name once |
| BasicReaders.BasicReader.Get | NetIntegration.Testing/Database/BasicReader.cs:23-43 | Get on the current record is GetAt; with no current record it throws InvalidOperation |
| BasicReaders.BasicReader.TryGet | NetIntegration.Testing/Database/BasicReader.cs:70-73 | the extension TryGet on the current record |
| BasicReaders.BasicReader.GetByName | NetIntegration.Testing/Database/BasicReader.cs:45-48 | Get at the cached ordinal of the name, with default(T); the ordinal's exception otherwise |
| BasicReaders.BasicReader.TryGetByName | NetIntegration.Testing/Database/BasicReader.cs:65-68 | the extension TryGet at the cached ordinal of the name; the ordinal's exception otherwise |
| Strings.ReplaceAbsent | NetIntegration.Testing/Database/DatabaseManager.cs:228-235 | Replace leaves a string without the pattern unchanged |
| Strings.FoldKeysIgnoreCase | NetIntegration.Testing/Database/BasicReader.cs:79 | two names share a folded key exactly when they are equal under OrdinalIgnoreCase |
| DatabaseManagement.GetDatabaseFilenameReplaces | NetIntegration.Testing/Database/DatabaseManager.cs:224-238 | the guarded replacement is the same as replacing every placeholder occurrence with the base directory; a path without the placeholder comes back unchanged |
| DatabaseManagement.GetDatabaseFilename | NetIntegration.Testing/Database/DatabaseManager.cs:224-238 | the attach path with the placeholder replaced; its contract is GetDatabaseFilenameReplaces and DataFileUnderDataDirectory |
| DatabaseManagement.LogFilename | NetIntegration.Testing/Database/DatabaseManager.cs:61 | every ".mdf" replaced by "_log.ldf"; its contract is LogFilenameOfDataFile |
| DatabaseManagement.DacFriendly | NetIntegration.Testing/Database/DatabaseManager.cs:249-253 | the descriptor without attach file and pooling; its contract is DacFriendlySpec |
| DatabaseManagement.GrantRun | NetIntegration.Testing/Database/DatabaseManager.cs:57-62 | the calls, attached databases and outcome of GrantFileAccessForAttach; its contract is GrantSpec |
| DatabaseManagement.DeployRun | NetIntegration.Testing/Database/DatabaseManager.cs:64-79 | the same for Deploy; its contract is DeploySpec |
| DatabaseManagement.DetachRun | NetIntegration.Testing/Database/DatabaseManager.cs:95-111 | the same for DetachDatabase; its contract is DetachSpec |
| DatabaseManagement.DeployLocalRun | NetIntegration.Testing/Database/DatabaseManager.cs:81-93 | the same for DeployLocalDB; its contract is DeployLocalGrantFails, DeployLocalDetachesOnce, DeployLocalOutcome and DeployLocalLeavesAttached |
| DatabaseManagement.ProcessConnection | NetIntegration.Testing/Database/DatabaseManager.cs:196-208 | the run of ProcessConnection around a callback's work; its contract is ProcessGuards and CommandRun |
| DatabaseManagement.ProcessCommand | NetIntegration.Testing/Database/DatabaseManager.cs:180-194 | the run of ProcessCommand around a callback's work; its contract is ProcessGuards, ProcessCommandReleases and CommandRun |
| DatabaseManagement.InCommand | NetIntegration.Testing/Database/DatabaseManager.cs:187-193 | the connection callback ProcessCommand builds: create the command, run the callback, dispose the command; its contract is ProcessCommandReleases and CommandRun |
| DatabaseManagement.ProcessCommandOfCommand | NetIntegration.Testing/Database/DatabaseManager.cs:175-178 | the Action<SqlCommand> overload, which wraps the callback before the null check; its contract is CommandRun and ProcessCommandOfNullCallback |
| DatabaseManagement.ExecuteNonQueryRun | NetIntegration.Testing/Database/DatabaseManager.cs:113-124 | the calls, attached databases and outcome of ExecuteNonQuery; its contract is CommandRun and ExecuteNonQuerySpec |
| DatabaseManagement.ExecuteReaderRun | NetIntegration.Testing/Database/DatabaseManager.cs:126-140 | the same for ExecuteReader; its contract is CommandRun and ExecuteReaderSpec |
| DatabaseManagement.GetResultsRun | NetIntegration.Testing/Database/DatabaseManager.cs:158-161 | the same for GetResults, ExecuteReader with ToList as the consumer; its contract is ExecuteReaderSpec with ProjectAllSpec |
| DatabaseManagement.GetKeyedResultsRun | NetIntegration.Testing/Database/DatabaseManager.cs:163-166 | the same for the keyed GetResults, ExecuteReader with ToDictionary as the consumer; its contract is ExecuteReaderSpec with KeyedByContents and KeyedByOutcome |
| DatabaseManagement.GetSingleResultRun | NetIntegration.Testing/Database/DatabaseManager.cs:168-171 | the same for GetSingleResult; its contract is GetSingleResultSpec and SingleResultSpec |
| DatabaseManagement.SingleResult | NetIntegration.Testing/Database/DatabaseManager.cs:170 | the outcome of GetSingleResult's reader function; its contract is SingleResultSpec |
| DatabaseManagement.DataFileUnderDataDirectory | NetIntegration.Testing/Database/DatabaseManager.cs:228-230 | a placeholder at the head of the attach path, and nowhere else, becomes the base directory |
| DatabaseManagement.LogFilenameOfDataFile | NetIntegration.Testing/Database/DatabaseManager.cs:61 | the log file of stem.mdf is stem_log.ldf; a name without ".mdf" is its own log file name |
| DatabaseManagement.AttachUnderDataDirectory | NetIntegration.Testing/Database/DatabaseManager.cs:57-62 | an attach path \|DataDirectory\|file.mdf names the data file base+file.mdf and the log file base+file_log.ldf |
| DatabaseManagement.DacFriendlySpec | NetIntegration.Testing/Database/DatabaseManager.cs:249-253 | the DAC descriptor has no attach file and no pooling, keeps every other setting, and rewriting it again changes nothing |
| DatabaseManagement.GrantSpec | NetIntegration.Testing/Database/DatabaseManager.cs:57-62 | the data file is granted first and its log file second, each with exactly the FullControl Allow rules for the principal and the SQL Express service; it succeeds exactly when both grants do, and stops at the first that throws |
| DatabaseManagement.DeploySpec | NetIntegration.Testing/Database/DatabaseManager.cs:64-79 | the connection is opened first and disposed last; the package is deployed to connection.Database through a descriptor with no attach file and no pooling; opening attaches the file as connection.Database |
| DatabaseManagement.DetachSpec | NetIntegration.Testing/Database/DatabaseManager.cs:95-111 | KillAllProcesses comes first; an absent catalog ends the operation without error; otherwise single-user, rollback and detach follow in that order; success leaves the catalog detached, and nothing else is detached |
| DatabaseManagement.DeployLocalGrantFails | NetIntegration.Testing/Database/DatabaseManager.cs:81-83 | if granting throws, neither the deploy nor the detach runs, and the grant's exception is the outcome |
| DatabaseManagement.DeployLocalDetachesOnce | NetIntegration.Testing/Database/DatabaseManager.cs:81-93 | after a successful grant the detach runs exactly once, after every deploy call, whether or not the deploy threw |
| DatabaseManagement.DeployLocalOutcome | NetIntegration.Testing/Database/DatabaseManager.cs:84-91 | the detach's exception replaces the deploy's; otherwise the deploy's outcome stands; success means both succeeded; a successful detach leaves the catalog detached |
| DatabaseManagement.DeployLocalLeavesAttached | NetIntegration.Testing/Database/DatabaseManager.cs:76-109 | after a successful grant and open, the attached file stays attached exactly when connection.Database differs from the Initial Catalog the detach looks up, or the detach throws |
| DatabaseManagement.ProcessGuards | NetIntegration.Testing/Database/DatabaseManager.cs:180-201 | a null callback makes ProcessConnection and ProcessCommand throw ArgumentNull("function") before any call is made |
| DatabaseManagement.ProcessCommandOfNullCallback | NetIntegration.Testing/Database/DatabaseManager.cs:175-178 | the command-only overload wraps the callback before the null check, so a null callback throws NullReference after the connection and command exist, and both are disposed |
| DatabaseManagement.ProcessCommandReleases | NetIntegration.Testing/Database/DatabaseManager.cs:180-208 | the connection is opened first and disposed last; the callback's calls sit between the command's creation and disposal; the callback's outcome is the outcome |
| DatabaseManagement.CommandRun | NetIntegration.Testing/Database/DatabaseManager.cs:175-208 | the three ways a command run goes: open throws, create throws, or the callback runs between creation and the two disposals |
| DatabaseManagement.ExecuteNonQuerySpec | NetIntegration.Testing/Database/DatabaseManager.cs:113-124 | the affected-row count of the text prepare set is returned; a throwing prepare's exception leaves; a null prepare throws NullReference after the connection and command exist |
| DatabaseManagement.SingleResultSpec | NetIntegration.Testing/Database/DatabaseManager.cs:168-171 | only the first record matters; an empty result set gives default(TResult) without calling the function, even a null one; with a record, the outcome is the function's |
| DatabaseManagement.GetSingleResultSpec | NetIntegration.Testing/Database/DatabaseManager.cs:168-171 | when every call succeeds, the reader, command and connection are disposed in that order, and the outcome is the single result of the result set |
| DatabaseManagement.ExecuteReaderSpec | NetIntegration.Testing/Database/DatabaseManager.cs:126-140 | when every call succeeds, the reader, command and connection are disposed in reverse order of creation, and the outcome is what the consumer makes of the result set |
| DatabaseManagement.DatabaseImpl.constructor | NetIntegration.Testing/Database/DatabaseManager.cs:51-54 | the database keeps its connection descriptor |
| DatabaseManagement.DatabaseImpl.GrantFileAccess | NetIntegration.Testing/Database/DatabaseManager.cs:240-247 | one SetAccessControl call with the two rules; it throws exactly when that call does |
| DatabaseManagement.DatabaseImpl.GrantFileAccessForAttach | NetIntegration.Testing/Database/DatabaseManager.cs:57-62 | the calls, attached databases and outcome are those of GrantRun |
| DatabaseManagement.DatabaseImpl.Deploy | NetIntegration.Testing/Database/DatabaseManager.cs:64-79 | the calls, attached databases and outcome are those of DeployRun |
| DatabaseManagement.DatabaseImpl.DeployLocalDB | NetIntegration.Testing/Database/DatabaseManager.cs:81-93 | the calls, attached databases and outcome are those of DeployLocalRun |
| DatabaseManagement.DatabaseImpl.DetachDatabase | NetIntegration.Testing/Database/DatabaseManager.cs:95-111 | the calls, attached databases and outcome are those of DetachRun |
| DatabaseManagement.DatabaseImpl.OpenCommand | NetIntegration.Testing/Database/DatabaseManager.cs:187-205 | open the connection and create the command; if either throws, the connection is disposed and that call's exception is the outcome |
| DatabaseManagement.DatabaseImpl.CloseCommand | NetIntegration.Testing/Database/DatabaseManager.cs:189-207 | the command is disposed, then the connection |
| DatabaseManagement.DatabaseImpl.ExecuteNonQuery | NetIntegration.Testing/Database/DatabaseManager.cs:113-124 | the calls, attached databases and outcome are those of ExecuteNonQueryRun |
| DatabaseManagement.DatabaseImpl.NonQuery | NetIntegration.Testing/Database/DatabaseManager.cs:117-121 | the callback: prepare, then ExecuteNonQuery on the text it set |
| DatabaseManagement.DatabaseImpl.OpenReader | NetIntegration.Testing/Database/DatabaseManager.cs:133 | ExecuteReader returns a fresh reader, before its first record, over the query's result set; it returns none when the call throws |
| DatabaseManagement.DatabaseImpl.GetSingleResult | NetIntegration.Testing/Database/DatabaseManager.cs:168-171 | the calls, attached databases and outcome are those of GetSingleResultRun |
| DatabaseManagement.DatabaseImpl.ReadSingle | NetIntegration.Testing/Database/DatabaseManager.cs:130-137 | the reader callback of GetSingleResult: the function applied to the first record, if there is one, and the reader disposed |
| DatabaseManagement.DatabaseImpl.GetResults | NetIntegration.Testing/Database/DatabaseManager.cs:158-161 | the calls, attached databases and outcome are those of GetResultsRun: ToList of the function over the result set, inside the ExecuteReader run |
| DatabaseManagement.DatabaseImpl.ReadList | NetIntegration.Testing/Database/DatabaseManager.cs:130-137 | the reader callback of GetResults: ToList over a fresh reader, and the reader disposed |
| DatabaseManagement.DatabaseImpl.GetKeyedResults | NetIntegration.Testing/Database/DatabaseManager.cs:163-166 | the calls, attached databases and outcome are those of GetKeyedResultsRun: ToDictionary of the function and key selector over the result set, inside the ExecuteReader run |
| DatabaseManagement.DatabaseImpl.ReadDictionary | NetIntegration.Testing/Database/DatabaseManager.cs:130-137 | the reader callback of the keyed GetResults: ToDictionary over a fresh reader, and the reader disposed |
| DatabaseManagement.DatabaseManager.SetConnectionString | NetIntegration.Testing/Database/DatabaseManager.cs:30-33 | the connection string is replaced and the lazy database is left as it was |
| DatabaseManagement.DatabaseManager.GetDatabase | NetIntegration.Testing/Database/DatabaseManager.cs:40-43 | a new DatabaseImpl over the parsed connection string |
| DatabaseManagement.DatabaseManager.Database | NetIntegration.Testing/Database/DatabaseManager.cs:18-26 | the first read runs the factory: a null or white-space connection string throws InvalidOperation, anything else gives a new database; every later read returns what the first produced, exception included |

## Left out

- Real I/O. Nothing here opens a connection, deploys a package, touches SMO or sets a file ACL. Each such call is an `Event` in the host's log. Its effect on the server is limited to which catalogs are attached, and a `World` value decides whether it throws.
- DatabaseManagement.Host: the fault schedule is a fixed function of the call. The model does not capture a call that succeeds once and throws later with the same arguments.
- DatabaseManagement.Fallible: Close, Dispose and setting `UserAccess` on the SMO database are taken never to throw.
- DatabaseManagement.DetachRun: `server.Databases[name]` is modelled as membership in the set of attached catalogs.
- `new DacServices(...)` and `DacPackage.Load` are not separated: loading is one fallible call, and the services object is not a call. The debug message and progress handlers and the `CancellationToken` are left out; they only log.
- The `SqlConnectionStringBuilder` grammar. A connection string becomes a `Descriptor` through the uninterpreted `World.parse`. Serialising the DAC-friendly descriptor back to text is not modelled. Malformed strings, which the builder rejects, are not modelled.
- The internals of `Convert.ChangeType`, `Enum.Parse` and `ToString`. These are library code and stay uninterpreted. Only two documented rules are written out: `Enum.Parse` refuses a non-enumeration type, and `ChangeType` refuses `Nullable<>`.
- ClrTypes.EnumType: only enumerations whose underlying type is `int` are modelled.
- Strings.Fold: OrdinalIgnoreCase folds ASCII letters only. Other Unicode case pairs are treated as distinct.
- DataReaders.GetOrdinal: the reader's case-insensitive pass is modelled with the same ASCII folding. SqlDataReader compares with the connection's culture instead, ignoring case and then also kana type and width. Culture-specific casing, full-width letters and kana are not modelled.
- BasicReaders.CachedOrdinalMatchesReader: it holds because both lookups fold ASCII letters. A column "Ａ" (full-width) looked up as "A" is found by SqlDataReader, but the cache throws KeyNotFound. The lemma does not cover that case.
- DatabaseManagement.World: `database`, the name the server gives the connection's database, is any function of the descriptor. That the server uses the Initial Catalog when one is given is not built in.
- DataReaderExtensions.ToDictionary: the `IEqualityComparer<TKey>` argument is left out, so keys use their default equality. A null key, which `Dictionary.Add` rejects, is not modelled.
- DataReaderExtensions.Collect: does not state where the reader stands after a projection throws; it only states that the result is that exception.
- DataReaderExtensions.Fill: does not state where the reader stands after a projection, key selector or `Add` throws; it only states that the result is that exception.
- Projections and key selectors are pure functions of the current record. A projection that keeps state, or that calls `BasicReader.GetOrdinal` and so builds the cache shared across records, is not modelled.
- `ExecuteReader` with an arbitrary function, and its overload that also receives the connection, are modelled only through the three shapes that use them: single result, list and dictionary.
- The generic `ProcessConnection<T>` overload is not modelled: nothing in the modelled operations calls it.
- `Lazy<T>` thread safety and the static `ConnectionString` shared between threads are not modelled. The exception caching of `Lazy<T>` is modelled.
- `SetDataDirectory`, the implicit `SqlDataReader` conversion and the `GetInt32`/`GetInt64`/`GetString` pass-throughs of BasicReader only set data or cast, so they are left out.
- `IDatabase.cs` declares the interface only and is not part of this model.
- The integration test that needs a LocalDB instance is not part of this model. Its `|DataDirectory|\Northwind.mdf` attach path appears only as the shape that DatabaseManagement.AttachUnderDataDirectory describes.
