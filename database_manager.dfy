/** DatabaseManager and its DatabaseImpl: deploying a DAC package into a LocalDB
    database attached from a file, detaching it again, and running commands
    over a fresh connection per call.

    The server, the file system and the DAC services are a Host: every call
    into them is an Event appended to a log, and whether a call throws is
    decided by the host's fault schedule. Each DatabaseImpl operation is a
    method over the host, proved equal to a specification function (a Run:
    the events logged, the databases attached afterwards, the outcome), and
    the ordering and clean-up promises are lemmas about those functions. */
module DatabaseManagement {
  import opened Wrappers
  import opened Strings
  import opened ClrTypes
  import opened DataReaders
  import DataReaderExtensions

  // ---------------------------------------------------------------------------
  // Connection descriptors and file names

  /** The placeholder SqlClient expands to the application's base directory. */
  const DataDirectory: string := "|DataDirectory|"
  /** The data file extension, and what replaces it in the log file name. */
  const DataFileExtension: string := ".mdf"
  const LogFileSuffix: string := "_log.ldf"
  /** The service account of a SQL Server Express instance. */
  const SqlExpressService: string := "NT Service\\MSSQL$SQLEXPRESS"

  /** A connection string as SqlConnectionStringBuilder reads it: the settings
      the code looks at, and the others, kept as given. */
  datatype Descriptor = Descriptor(
    dataSource: string,
    initialCatalog: string,
    attachDbFilename: string,
    pooling: bool,
    others: map<string, string>)

  /** GetDatabaseFilename: the attach path with the data-directory placeholder
      replaced by `baseDirectory`, when it holds one. */
  function GetDatabaseFilename(d: Descriptor, baseDirectory: string): string {
    if Contains(d.attachDbFilename, DataDirectory) then
      Replace(d.attachDbFilename, DataDirectory, baseDirectory)
    else
      d.attachDbFilename
  }

  /** The guard on the placeholder changes nothing: the file name is always
      the attach path with every placeholder replaced, and a path without
      one comes back as it is. */
  lemma GetDatabaseFilenameReplaces(d: Descriptor, baseDirectory: string)
    ensures GetDatabaseFilename(d, baseDirectory) == Replace(d.attachDbFilename, DataDirectory, baseDirectory)
    ensures !Contains(d.attachDbFilename, DataDirectory) ==> GetDatabaseFilename(d, baseDirectory) == d.attachDbFilename
  {
    if !Contains(d.attachDbFilename, DataDirectory) {
      ReplaceAbsent(d.attachDbFilename, DataDirectory, baseDirectory);
    }
  }

  /** The log file that belongs to a data file: every ".mdf" becomes "_log.ldf". */
  function LogFilename(dataFile: string): string {
    Replace(dataFile, DataFileExtension, LogFileSuffix)
  }

  /** A data file named `stem.mdf` has the log file `stem_log.ldf`; a name
      without ".mdf" is its own log file name. */
  lemma LogFilenameOfDataFile(stem: string)
    requires !Contains(stem, DataFileExtension)
    ensures LogFilename(stem + DataFileExtension) == stem + LogFileSuffix
    ensures LogFilename(stem) == stem
  {
    var p := DataFileExtension;
    assert Unbordered(p) by {
      forall k | 0 < k < |p|
        ensures p[..k] != p[|p| - k..]
      {
        assert p[..k][0] == '.' != p[|p| - k..][0];
      }
    }
    ReplaceAtEnd(stem, p, LogFileSuffix);
    ReplaceAbsent(stem, p, LogFileSuffix);
  }

  /** GetDacFriendlyConnectionString: no attach file and no pooling, every
      other setting as it was. */
  function DacFriendly(d: Descriptor): Descriptor {
    d.(attachDbFilename := "", pooling := false)
  }

  /** The DAC descriptor attaches nothing and pools nothing, keeps the server,
      catalog and other settings, and rewriting it again changes nothing. */
  lemma DacFriendlySpec(d: Descriptor)
    ensures DacFriendly(d).attachDbFilename == "" && !DacFriendly(d).pooling
    ensures DacFriendly(d).dataSource == d.dataSource && DacFriendly(d).initialCatalog == d.initialCatalog
    ensures DacFriendly(d).others == d.others
    ensures DacFriendly(DacFriendly(d)) == DacFriendly(d)
    ensures d.attachDbFilename == "" && !d.pooling ==> DacFriendly(d) == d
  {
  }

  /** An attach path `|DataDirectory|<file>.mdf`, as in the integration
      tests' Northwind connection string, names the data file
      `<base directory><file>.mdf` and the log file `<base directory><file>_log.ldf`. */
  lemma AttachUnderDataDirectory(d: Descriptor, baseDirectory: string, file: string)
    requires d.attachDbFilename == DataDirectory + file + DataFileExtension
    requires !Contains(file + DataFileExtension, DataDirectory)
    requires !Contains(baseDirectory + file, DataFileExtension)
    ensures GetDatabaseFilename(d, baseDirectory) == baseDirectory + file + DataFileExtension
    ensures LogFilename(GetDatabaseFilename(d, baseDirectory)) == baseDirectory + file + LogFileSuffix
  {
    var rest, stem := file + DataFileExtension, baseDirectory + file;
    ConcatAssociates(DataDirectory, file, DataFileExtension);
    DataFileUnderDataDirectory(d, baseDirectory, rest);
    ConcatAssociates(baseDirectory, file, DataFileExtension);
    LogFilenameOfDataFile(stem);
  }

  /** The placeholder at the head of the attach path becomes the base directory. */
  lemma DataFileUnderDataDirectory(d: Descriptor, baseDirectory: string, rest: string)
    requires d.attachDbFilename == DataDirectory + rest
    requires !Contains(rest, DataDirectory)
    ensures GetDatabaseFilename(d, baseDirectory) == baseDirectory + rest
  {
    ReplaceAtStart(DataDirectory, rest, baseDirectory);
    GetDatabaseFilenameReplaces(d, baseDirectory);
  }

  // ---------------------------------------------------------------------------
  // The host: external calls, their faults and their effect on the server

  /** FileSystemAccessRule(identity, FullControl, Allow). */
  datatype AccessRule = FullControlAllow(identity: string)

  /** The two rules GrantFileAccess installs on a file. */
  function AccessRules(principal: string): seq<AccessRule> {
    [FullControlAllow(principal), FullControlAllow(SqlExpressService)]
  }

  /** The calls DatabaseImpl makes into the file system, SqlClient, the DAC
      services and SMO. */
  datatype Event =
    | SetAccessControl(file: string, rules: seq<AccessRule>)
    | OpenConnection(descriptor: Descriptor)
    | CloseConnection
    | DisposeConnection
    | CreateCommand
    | DisposeCommand
    | ExecuteNonQueryCall(text: string)
    | ExecuteReaderCall(text: string)
    | DisposeReader
    | LoadPackage(path: string)
    | DeployPackage(path: string, catalog: string, target: Descriptor)
    | KillAllProcesses(server: string, catalog: string)
    | SetSingleUser(catalog: string)
    | AlterRollbackImmediately(server: string, catalog: string)
    | DetachCall(server: string, catalog: string, updateStatistics: bool)

  /** Close, Dispose and setting a property on the SMO object do not throw. */
  predicate Fallible(e: Event) {
    !(e.CloseConnection? || e.DisposeConnection? || e.DisposeCommand? || e.DisposeReader? || e.SetSingleUser?)
  }

  /** What the code cannot see: which calls throw, the current principal, the
      application's base directory, the database a connection is in once
      open (`connection.Database`), the rows a command affects, the result
      set a query returns, and how SqlConnectionStringBuilder reads a string.
      The server puts a connection in its Initial Catalog when the descriptor
      names one; a file attached without one gets a name the server chooses. */
  datatype World = World(
    fails: Event -> bool,
    principal: string,
    baseDirectory: string,
    database: Descriptor -> string,
    affectedRows: string -> int,
    results: string -> (seq<string>, seq<seq<Value>>),
    parse: string -> Descriptor)

  predicate Fails(w: World, e: Event) {
    Fallible(e) && w.fails(e)
  }

  /** The databases attached to the server after a successful call: opening a
      connection that names a file attaches it as the connection's database,
      detaching removes the catalog. */
  function Apply(w: World, attached: set<string>, e: Event): set<string> {
    match e
    case OpenConnection(d) => if d.attachDbFilename != "" then attached + {w.database(d)} else attached
    case DetachCall(_, catalog, _) => attached - {catalog}
    case _ => attached
  }

  /** An exception leaving an operation: one the code or the framework raises,
      or one thrown by an external call. */
  datatype Fault = Raised(error: Error) | CallFailed(call: Event)

  /** An operation's observable behaviour: the calls it made in order, the
      databases attached afterwards, and its outcome. */
  datatype Run<T> = Run(events: seq<Event>, attached: set<string>, result: Result<T, Fault>)

  /** The server, file system and DAC services, with the log of calls made so far. */
  class Host {
    const world: World
    ghost var log: seq<Event>
    var attached: set<string>

    constructor (world: World, attached: set<string>)
      ensures this.world == world && this.attached == attached && log == []
    {
      this.world := world;
      this.attached := attached;
      log := [];
    }

    /** Make one call: it is logged, and it either succeeds, with its effect on
        the server, or throws and changes nothing. */
    method Call(e: Event) returns (ok: bool)
      modifies this
      ensures ok == !Fails(world, e)
      ensures log == old(log) + [e]
      ensures attached == if ok then Apply(world, old(attached), e) else old(attached)
    {
      ok := !Fails(world, e);
      log := log + [e];
      if ok {
        attached := Apply(world, attached, e);
      }
    }
  }

  // ---------------------------------------------------------------------------
  // Specification of the operations

  /** GrantFileAccessForAttach: the data file, then its log file, each given
      the two access rules; the first call that throws ends the operation. */
  function GrantRun(w: World, attached: set<string>, d: Descriptor): Run<()> {
    var dataFile := GetDatabaseFilename(d, w.baseDirectory);
    var first := SetAccessControl(dataFile, AccessRules(w.principal));
    var second := SetAccessControl(LogFilename(dataFile), AccessRules(w.principal));
    if Fails(w, first) then Run([first], attached, Failure(CallFailed(first)))
    else if Fails(w, second) then Run([first, second], attached, Failure(CallFailed(second)))
    else Run([first, second], attached, Success(()))
  }

  /** Deploy: open a connection with the descriptor as given (which attaches
      the file), load the package, deploy it to `connection.Database` through
      the DAC-friendly descriptor, close; the connection is disposed on every
      path. */
  function DeployRun(w: World, attached: set<string>, d: Descriptor, path: string): Run<()> {
    var open := OpenConnection(d);
    if Fails(w, open) then Run([open, DisposeConnection], attached, Failure(CallFailed(open)))
    else
      var now := Apply(w, attached, open);
      var load := LoadPackage(path);
      var deploy := DeployPackage(path, w.database(d), DacFriendly(d));
      if Fails(w, load) then Run([open, load, DisposeConnection], now, Failure(CallFailed(load)))
      else if Fails(w, deploy) then Run([open, load, deploy, DisposeConnection], now, Failure(CallFailed(deploy)))
      else Run([open, load, deploy, CloseConnection, DisposeConnection], now, Success(()))
  }

  /** DetachDatabase: end every session on the catalog; if the server has the
      catalog, switch it to single-user, apply that rolling back open
      transactions, and detach it updating statistics. */
  function DetachRun(w: World, attached: set<string>, d: Descriptor): Run<()> {
    var server, catalog := d.dataSource, d.initialCatalog;
    var kill := KillAllProcesses(server, catalog);
    var single := SetSingleUser(catalog);
    var alter := AlterRollbackImmediately(server, catalog);
    var detach := DetachCall(server, catalog, true);
    if Fails(w, kill) then Run([kill], attached, Failure(CallFailed(kill)))
    else if catalog !in attached then Run([kill], attached, Success(()))
    else if Fails(w, alter) then Run([kill, single, alter], attached, Failure(CallFailed(alter)))
    else if Fails(w, detach) then Run([kill, single, alter, detach], attached, Failure(CallFailed(detach)))
    else Run([kill, single, alter, detach], Apply(w, attached, detach), Success(()))
  }

  /** DeployLocalDB: grant access; then deploy, and detach in a finally block.
      An exception from the detach replaces one from the deploy. */
  function DeployLocalRun(w: World, attached: set<string>, d: Descriptor, path: string): Run<()> {
    var grant := GrantRun(w, attached, d);
    if grant.result.Failure? then grant
    else
      var deploy := DeployRun(w, grant.attached, d, path);
      var detach := DetachRun(w, deploy.attached, d);
      Run(grant.events + deploy.events + detach.events, detach.attached,
          if detach.result.Failure? then detach.result else deploy.result)
  }

  /** What a callback does once invoked: the calls it makes and its outcome. */
  datatype Work<T> = Work(events: seq<Event>, result: Result<T, Fault>)

  /** ProcessConnection: a null callback throws before any connection exists;
      otherwise open a connection, run the callback, and dispose the
      connection on every path. */
  function ProcessConnection<T>(w: World, attached: set<string>, d: Descriptor, callback: Option<Work<T>>): Run<T> {
    var open := OpenConnection(d);
    match callback
    case None => Run([], attached, Failure(Raised(ArgumentNull("function"))))
    case Some(body) =>
      if Fails(w, open) then Run([open, DisposeConnection], attached, Failure(CallFailed(open)))
      else Run([open] + body.events + [DisposeConnection], Apply(w, attached, open), body.result)
  }

  /** The connection callback ProcessCommand builds: create a command, run the
      callback on it, and dispose the command on every path. */
  function InCommand<T>(w: World, body: Work<T>): Work<T> {
    if Fails(w, CreateCommand) then Work([CreateCommand], Failure(CallFailed(CreateCommand)))
    else Work([CreateCommand] + body.events + [DisposeCommand], body.result)
  }

  /** ProcessCommand(Action<SqlConnection, SqlCommand>): a null callback throws
      before any connection exists. */
  function ProcessCommand<T>(w: World, attached: set<string>, d: Descriptor, callback: Option<Work<T>>): Run<T> {
    match callback
    case None => Run([], attached, Failure(Raised(ArgumentNull("function"))))
    case Some(body) => ProcessConnection(w, attached, d, Some(InCommand(w, body)))
  }

  /** Invoking a delegate: a null one throws NullReferenceException. */
  function Invoke<T>(callback: Option<Work<T>>): Work<T> {
    match callback
    case None => Work([], Failure(Raised(NullReference)))
    case Some(body) => body
  }

  /** ProcessCommand(Action<SqlCommand>): the callback is wrapped in a lambda
      before the null check, so the check never sees it. */
  function ProcessCommandOfCommand<T>(w: World, attached: set<string>, d: Descriptor, callback: Option<Work<T>>): Run<T> {
    ProcessCommand(w, attached, d, Some(Invoke(callback)))
  }

  /** `prepare(command)`: None when the delegate is null; otherwise the
      exception it throws, or the command as it leaves it prepared. The string
      stands for that whole prepared command (its text, type, parameters and
      timeout), and the World's `affectedRows` and `results` are functions of
      it. */
  type Prepare = Option<Result<string, Error>>

  /** Running `prepare` on the command, then `execute` with the text it set. */
  function Prepared<T>(prepare: Prepare, execute: string -> Work<T>): Work<T> {
    match prepare
    case None => Work([], Failure(Raised(NullReference)))
    case Some(Failure(e)) => Work([], Failure(Raised(e)))
    case Some(Success(text)) => execute(text)
  }

  /** command.ExecuteNonQuery(): the number of rows the command affected. */
  function NonQueryCall(w: World, text: string): Work<int> {
    var call := ExecuteNonQueryCall(text);
    if Fails(w, call) then Work([call], Failure(CallFailed(call)))
    else Work([call], Success(w.affectedRows(text)))
  }

  /** The callback ExecuteNonQuery runs on the command: prepare it, then execute it. */
  function NonQueryBody(w: World, prepare: Prepare): Work<int> {
    Prepared(prepare, text => NonQueryCall(w, text))
  }

  /** ExecuteNonQuery(prepare). */
  function ExecuteNonQueryRun(w: World, attached: set<string>, d: Descriptor, prepare: Prepare): Run<int> {
    ProcessCommandOfCommand(w, attached, d, Some(NonQueryBody(w, prepare)))
  }

  /** `using (var reader = command.ExecuteReader()) { result = consume(reader); }`. */
  function ReaderCall<T>(w: World, text: string, consume: (seq<string>, seq<seq<Value>>) -> Result<T, Error>): Work<T> {
    var call := ExecuteReaderCall(text);
    if Fails(w, call) then Work([call], Failure(CallFailed(call)))
    else
      var (names, records) := w.results(text);
      Work([call, DisposeReader], Lift(consume(names, records)))
  }

  /** An exception the code or the framework raises, as it leaves the operation. */
  function Lift<T>(r: Result<T, Error>): Result<T, Fault> {
    match r
    case Success(v) => Success(v)
    case Failure(e) => Failure(Raised(e))
  }

  /** The callback ExecuteReader runs on the command: prepare it, then read
      its result set with `consume`. */
  function ReaderBody<T>(w: World, prepare: Prepare, consume: (seq<string>, seq<seq<Value>>) -> Result<T, Error>): Work<T> {
    Prepared(prepare, text => ReaderCall(w, text, consume))
  }

  /** ExecuteReader(prepare, consume). */
  function ExecuteReaderRun<T>(w: World, attached: set<string>, d: Descriptor, prepare: Prepare,
                               consume: (seq<string>, seq<seq<Value>>) -> Result<T, Error>): Run<T> {
    ProcessCommandOfCommand(w, attached, d, Some(ReaderBody(w, prepare, consume)))
  }

  /** `reader.Read() ? function(reader) : default(TResult)`, with None for
      default(TResult). */
  function SingleResult<R>(callback: Option<Row -> Result<R, Error>>, names: seq<string>, records: seq<seq<Value>>): Result<Option<R>, Error> {
    if records == [] then Success(None)
    else
      match callback
      case None => Failure(NullReference)
      case Some(f) =>
        match f(Row(names, records[0]))
        case Success(v) => Success(Some(v))
        case Failure(e) => Failure(e)
  }

  function SingleConsumer<R>(callback: Option<Row -> Result<R, Error>>): (seq<string>, seq<seq<Value>>) -> Result<Option<R>, Error> {
    (names, records) => SingleResult(callback, names, records)
  }

  /** GetSingleResult(prepare, function). */
  function GetSingleResultRun<R>(w: World, attached: set<string>, d: Descriptor, prepare: Prepare, callback: Option<Row -> Result<R, Error>>): Run<Option<R>> {
    ExecuteReaderRun(w, attached, d, prepare, SingleConsumer(callback))
  }

  /** `reader.ToList(function)` on a fresh reader over the result set. */
  function ListOf<R>(callback: Option<Row -> Result<R, Error>>, names: seq<string>, records: seq<seq<Value>>): Result<seq<R>, Error> {
    match callback
    case None => Failure(ArgumentNull("function"))
    case Some(f) => DataReaderExtensions.ProjectAll(names, records, f)
  }

  function ListConsumer<R>(callback: Option<Row -> Result<R, Error>>): (seq<string>, seq<seq<Value>>) -> Result<seq<R>, Error> {
    (names, records) => ListOf(callback, names, records)
  }

  /** GetResults(prepare, function). */
  function GetResultsRun<R>(w: World, attached: set<string>, d: Descriptor, prepare: Prepare, callback: Option<Row -> Result<R, Error>>): Run<seq<R>> {
    ExecuteReaderRun(w, attached, d, prepare, ListConsumer(callback))
  }

  /** `reader.ToDictionary(function, keySelector)` on a fresh reader over the result set. */
  function DictionaryOf<K, V>(callback: Option<Row -> Result<V, Error>>, keySelector: Option<V -> Result<K, Error>>,
                              names: seq<string>, records: seq<seq<Value>>): Result<map<K, V>, Error> {
    match callback
    case None => Failure(ArgumentNull("function"))
    case Some(f) =>
      match keySelector
      case None => Failure(ArgumentNull("keySelector"))
      case Some(ks) => DataReaderExtensions.KeyedBy(names, records, f, DataReaderExtensions.ValueKey(ks))
  }

  function DictionaryConsumer<K, V>(callback: Option<Row -> Result<V, Error>>, keySelector: Option<V -> Result<K, Error>>)
    : (seq<string>, seq<seq<Value>>) -> Result<map<K, V>, Error>
  {
    (names, records) => DictionaryOf(callback, keySelector, names, records)
  }

  /** GetResults(prepare, function, keySelector). */
  function GetKeyedResultsRun<K, V>(w: World, attached: set<string>, d: Descriptor, prepare: Prepare,
                                    callback: Option<Row -> Result<V, Error>>, keySelector: Option<V -> Result<K, Error>>): Run<map<K, V>> {
    ExecuteReaderRun(w, attached, d, prepare, DictionaryConsumer(callback, keySelector))
  }

  // ---------------------------------------------------------------------------
  // Properties of the operations

  /** GrantFileAccessForAttach grants the data file first and its log file
      second, each exactly the two FullControl Allow rules for the current
      principal and the SQL Server service; it succeeds exactly when both
      grants do, and stops at the first that throws. */
  lemma GrantSpec(w: World, attached: set<string>, d: Descriptor)
    ensures var run := GrantRun(w, attached, d);
      var dataFile := GetDatabaseFilename(d, w.baseDirectory);
      && 1 <= |run.events| <= 2
      && run.events[0] == SetAccessControl(dataFile, AccessRules(w.principal))
      && (|run.events| == 2 ==> run.events[1] == SetAccessControl(LogFilename(dataFile), AccessRules(w.principal)))
      && (forall i :: 0 <= i < |run.events| ==> run.events[i].rules == [FullControlAllow(w.principal), FullControlAllow(SqlExpressService)])
      && (run.result.Success? <==> |run.events| == 2 && forall i :: 0 <= i < |run.events| ==> !Fails(w, run.events[i]))
      && (run.result.Failure? ==> run.result.error == CallFailed(run.events[|run.events| - 1]))
      && run.attached == attached
  {
  }

  /** DetachDatabase always ends the catalog's sessions first. A catalog the
      server does not have is left alone, without error. Otherwise single-user,
      rollback and detach follow in that order, and when the operation
      succeeds the catalog is no longer attached; nothing else is detached. */
  lemma DetachSpec(w: World, attached: set<string>, d: Descriptor)
    ensures var run := DetachRun(w, attached, d);
      var server, catalog := d.dataSource, d.initialCatalog;
      && run.events[0] == KillAllProcesses(server, catalog)
      && (!Fails(w, run.events[0]) && catalog !in attached ==> run == Run([run.events[0]], attached, Success(())))
      && (!Fails(w, run.events[0]) && catalog in attached ==>
            run.events[1..] == [SetSingleUser(catalog), AlterRollbackImmediately(server, catalog), DetachCall(server, catalog, true)][..|run.events| - 1])
      && (run.result.Success? ==> catalog !in run.attached)
      && run.attached == attached - (if run.result.Success? then {catalog} else {})
  {
  }

  /** If granting access throws, DeployLocalDB neither deploys nor detaches:
      its calls and its exception are the grant's. */
  lemma DeployLocalGrantFails(w: World, attached: set<string>, d: Descriptor, path: string)
    requires GrantRun(w, attached, d).result.Failure?
    ensures var run := DeployLocalRun(w, attached, d, path);
      && run.events == GrantRun(w, attached, d).events
      && run.result == GrantRun(w, attached, d).result
      && forall i :: 0 <= i < |run.events| ==> run.events[i].SetAccessControl?
  {
  }

  /** Once access is granted, the detach runs exactly once, after every call
      of the deploy, whether or not the deploy threw: the calls are the
      grant's, then the deploy's, then the detach's, and the detach's first
      call is the only KillAllProcesses. */
  lemma DeployLocalDetachesOnce(w: World, attached: set<string>, d: Descriptor, path: string)
    requires GrantRun(w, attached, d).result.Success?
    ensures var grant := GrantRun(w, attached, d);
      var deploy := DeployRun(w, grant.attached, d, path);
      var run := DeployLocalRun(w, attached, d, path);
      var k := |grant.events| + |deploy.events|;
      && run.events == grant.events + deploy.events + DetachRun(w, deploy.attached, d).events
      && k < |run.events|
      && run.events[k] == KillAllProcesses(d.dataSource, d.initialCatalog)
      && (forall i :: 0 <= i < |run.events| && i != k ==> !run.events[i].KillAllProcesses?)
      && (forall i :: 0 <= i < |run.events| && (run.events[i].LoadPackage? || run.events[i].DeployPackage?) ==> i < k)
  {
    var grant := GrantRun(w, attached, d);
    var deploy := DeployRun(w, grant.attached, d, path);
    var detach := DetachRun(w, deploy.attached, d);
    var run := DeployLocalRun(w, attached, d, path);
    var k := |grant.events| + |deploy.events|;
    assert run.events == (grant.events + deploy.events) + detach.events;
    forall i | 0 <= i < |run.events|
      ensures (i != k ==> !run.events[i].KillAllProcesses?)
      ensures (run.events[i].LoadPackage? || run.events[i].DeployPackage? ==> i < k)
    {
      if i < |grant.events| {
        assert run.events[i] == grant.events[i];
      } else if i < k {
        assert run.events[i] == deploy.events[i - |grant.events|];
      } else {
        assert run.events[i] == detach.events[i - k];
      }
    }
  }

  /** The exception DeployLocalDB throws after a successful grant: the
      detach's if the detach threw (replacing any from the deploy), else the
      deploy's. When the detach succeeds the catalog is left detached. */
  lemma DeployLocalOutcome(w: World, attached: set<string>, d: Descriptor, path: string)
    requires GrantRun(w, attached, d).result.Success?
    ensures var deploy := DeployRun(w, attached, d, path);
      var detach := DetachRun(w, deploy.attached, d);
      var run := DeployLocalRun(w, attached, d, path);
      && (detach.result.Failure? ==> run.result == detach.result)
      && (detach.result.Success? ==> run.result == deploy.result)
      && (detach.result.Success? ==> d.initialCatalog !in run.attached)
      && (run.result.Success? <==> deploy.result.Success? && detach.result.Success?)
  {
    DetachSpec(w, DeployRun(w, attached, d, path).attached, d);
  }

  /** The deploy attaches the file through its own connection, and hands the
      DAC services the DAC-friendly descriptor, which attaches nothing and
      does not pool; its connection is disposed on every path. */
  lemma DeploySpec(w: World, attached: set<string>, d: Descriptor, path: string)
    ensures var run := DeployRun(w, attached, d, path);
      && run.events[0] == OpenConnection(d)
      && run.events[|run.events| - 1] == DisposeConnection
      && (forall i :: 0 <= i < |run.events| && run.events[i].DeployPackage? ==>
            run.events[i].target.attachDbFilename == "" && !run.events[i].target.pooling
            && run.events[i].catalog == w.database(d))
      && (!Fails(w, OpenConnection(d)) && d.attachDbFilename != "" ==> w.database(d) in run.attached)
  {
  }

  /** The deploy targets the database the connection is in, but the detach
      looks up the Initial Catalog. The attached file stays attached after
      DeployLocalDB exactly when those two names differ (an attach path
      without an Initial Catalog) or the detach throws. */
  lemma DeployLocalLeavesAttached(w: World, attached: set<string>, d: Descriptor, path: string)
    requires GrantRun(w, attached, d).result.Success?
    requires !Fails(w, OpenConnection(d)) && d.attachDbFilename != ""
    ensures var deploy := DeployRun(w, attached, d, path);
      var run := DeployLocalRun(w, attached, d, path);
      w.database(d) in run.attached <==> w.database(d) != d.initialCatalog || DetachRun(w, deploy.attached, d).result.Failure?
  {
    DeploySpec(w, attached, d, path);
    DetachSpec(w, DeployRun(w, attached, d, path).attached, d);
  }

  /** A null callback makes ProcessConnection and ProcessCommand throw
      ArgumentNullException before any call is made. */
  lemma ProcessGuards<T>(w: World, attached: set<string>, d: Descriptor)
    ensures ProcessConnection<T>(w, attached, d, None) == Run([], attached, Failure(Raised(ArgumentNull("function"))))
    ensures ProcessCommand<T>(w, attached, d, None) == Run([], attached, Failure(Raised(ArgumentNull("function"))))
  {
  }

  /** ProcessCommand(Action<SqlCommand>) cannot see a null callback: it opens
      the connection, creates the command, and the call of the null delegate
      throws NullReferenceException, after which both are disposed. */
  lemma ProcessCommandOfNullCallback<T>(w: World, attached: set<string>, d: Descriptor)
    requires !Fails(w, OpenConnection(d)) && !Fails(w, CreateCommand)
    ensures ProcessCommandOfCommand<T>(w, attached, d, None) ==
      Run([OpenConnection(d), CreateCommand, DisposeCommand, DisposeConnection], Apply(w, attached, OpenConnection(d)), Failure(Raised(NullReference)))
  {
  }

  /** Every command runs on a connection that is opened first and disposed
      last; once the command is created it is disposed just before the
      connection; and the callback's own calls sit between the two. */
  lemma ProcessCommandReleases<T>(w: World, attached: set<string>, d: Descriptor, body: Work<T>)
    ensures var run := ProcessCommand(w, attached, d, Some(body));
      && 2 <= |run.events|
      && run.events[0] == OpenConnection(d)
      && run.events[|run.events| - 1] == DisposeConnection
      && (!Fails(w, OpenConnection(d)) && !Fails(w, CreateCommand) ==>
            run.events == [OpenConnection(d), CreateCommand] + body.events + [DisposeCommand, DisposeConnection]
            && run.result == body.result)
      && (Fails(w, OpenConnection(d)) || Fails(w, CreateCommand) ==> run.result.Failure?)
  {
  }

  /** The three ways a command run can go: the connection cannot be opened,
      the command cannot be created, or the callback runs between the two
      and the disposals. */
  lemma CommandRun<T>(w: World, attached: set<string>, d: Descriptor, body: Work<T>)
    ensures var run, open := ProcessCommandOfCommand(w, attached, d, Some(body)), OpenConnection(d);
      && (Fails(w, open) ==> run == Run([open, DisposeConnection], attached, Failure(CallFailed(open))))
      && (!Fails(w, open) && Fails(w, CreateCommand) ==>
            run == Run([open, CreateCommand, DisposeConnection], Apply(w, attached, open), Failure(CallFailed(CreateCommand))))
      && (!Fails(w, open) && !Fails(w, CreateCommand) ==>
            run == Run([open, CreateCommand] + body.events + [DisposeCommand, DisposeConnection], Apply(w, attached, open), body.result))
  {
    if !Fails(w, OpenConnection(d)) && !Fails(w, CreateCommand) {
      assert [OpenConnection(d)] + ([CreateCommand] + body.events + [DisposeCommand]) + [DisposeConnection]
        == [OpenConnection(d), CreateCommand] + body.events + [DisposeCommand, DisposeConnection];
    }
  }

  /** ExecuteNonQuery returns the affected-row count of the command text
      `prepare` set, when every call succeeds; a null `prepare` throws
      NullReferenceException only after the connection and command exist. */
  lemma ExecuteNonQuerySpec(w: World, attached: set<string>, d: Descriptor, prepare: Prepare)
    requires !Fails(w, OpenConnection(d)) && !Fails(w, CreateCommand)
    ensures var run := ExecuteNonQueryRun(w, attached, d, prepare);
      && (prepare.None? ==>
            && run.result == Failure(Raised(NullReference))
            && run.events == [OpenConnection(d), CreateCommand, DisposeCommand, DisposeConnection])
      && (prepare.Some? && prepare.value.Success? && !Fails(w, ExecuteNonQueryCall(prepare.value.value)) ==>
            run.result == Success(w.affectedRows(prepare.value.value)))
      && (prepare.Some? && prepare.value.Failure? ==> run.result == Failure(Raised(prepare.value.error)))
  {
  }

  /** GetSingleResult looks at the first record only: records after it never
      change the result. An empty result set gives default(TResult) without
      calling `function`, even a null one. */
  lemma SingleResultSpec<R>(callback: Option<Row -> Result<R, Error>>, names: seq<string>, records: seq<seq<Value>>)
    ensures records == [] ==> SingleResult(callback, names, records) == Success(None)
    ensures records != [] ==> SingleResult(callback, names, records) == SingleResult(callback, names, records[..1])
    ensures records != [] && callback.Some? ==>
      (SingleResult(callback, names, records).Success? <==> callback.value(Row(names, records[0])).Success?)
  {
    if records != [] {
      assert records[..1][0] == records[0];
    }
  }

  /** GetSingleResult's outcome, when every call succeeds, is the single result
      of the query's result set. */
  lemma GetSingleResultSpec<R>(w: World, attached: set<string>, d: Descriptor, text: string, callback: Option<Row -> Result<R, Error>>)
    requires !Fails(w, OpenConnection(d)) && !Fails(w, CreateCommand) && !Fails(w, ExecuteReaderCall(text))
    ensures var run := GetSingleResultRun(w, attached, d, Some(Success(text)), callback);
      var (names, records) := w.results(text);
      && run.events == [OpenConnection(d), CreateCommand, ExecuteReaderCall(text), DisposeReader, DisposeCommand, DisposeConnection]
      && (SingleResult(callback, names, records).Success? ==> run.result == Success(SingleResult(callback, names, records).value))
      && (SingleResult(callback, names, records).Failure? ==> run.result == Failure(Raised(SingleResult(callback, names, records).error)))
  {
  }

  /** A query whose every call succeeds: the connection, the command and the
      reader are each disposed, in reverse order of creation, and the outcome
      is what `consume` makes of the result set. */
  lemma ExecuteReaderSpec<T>(w: World, attached: set<string>, d: Descriptor, text: string,
                             consume: (seq<string>, seq<seq<Value>>) -> Result<T, Error>)
    requires !Fails(w, OpenConnection(d)) && !Fails(w, CreateCommand) && !Fails(w, ExecuteReaderCall(text))
    ensures ExecuteReaderRun(w, attached, d, Some(Success(text)), consume) ==
      Run([OpenConnection(d), CreateCommand, ExecuteReaderCall(text), DisposeReader, DisposeCommand, DisposeConnection],
          Apply(w, attached, OpenConnection(d)),
          Lift(consume(w.results(text).0, w.results(text).1)))
  {
  }

  // ---------------------------------------------------------------------------
  // The operations over a host

  /** DatabaseImpl: the operations of IDatabase over one connection string. */
  class DatabaseImpl {
    /** `_connectionString`, as SqlConnectionStringBuilder reads it. */
    const descriptor: Descriptor
    const host: Host

    constructor (descriptor: Descriptor, host: Host)
      ensures this.descriptor == descriptor && this.host == host
    {
      this.descriptor := descriptor;
      this.host := host;
    }

    /** GrantFileAccess(filename): install the two rules on the file. */
    method GrantFileAccess(filename: string) returns (r: Result<(), Fault>)
      modifies host
      ensures var e := SetAccessControl(filename, AccessRules(host.world.principal));
        && host.log == old(host.log) + [e]
        && host.attached == old(host.attached)
        && r == if Fails(host.world, e) then Failure(CallFailed(e)) else Success(())
    {
      var e := SetAccessControl(filename, AccessRules(host.world.principal));
      var ok := host.Call(e);
      r := if ok then Success(()) else Failure(CallFailed(e));
    }

    method GrantFileAccessForAttach() returns (r: Result<(), Fault>)
      modifies host
      ensures var run := GrantRun(host.world, old(host.attached), descriptor);
        host.log == old(host.log) + run.events && host.attached == run.attached && r == run.result
    {
      var databaseFilename := GetDatabaseFilename(descriptor, host.world.baseDirectory);
      r := GrantFileAccess(databaseFilename);
      if r.Failure? {
        return;
      }
      r := GrantFileAccess(LogFilename(databaseFilename));
    }

    method Deploy(dacPackageFile: string) returns (r: Result<(), Fault>)
      modifies host
      ensures var run := DeployRun(host.world, old(host.attached), descriptor, dacPackageFile);
        host.log == old(host.log) + run.events && host.attached == run.attached && r == run.result
    {
      var open := OpenConnection(descriptor);
      var ok := host.Call(open);
      if !ok {
        r := Failure(CallFailed(open));
      } else {
        var load := LoadPackage(dacPackageFile);
        ok := host.Call(load);
        if !ok {
          r := Failure(CallFailed(load));
        } else {
          var deploy := DeployPackage(dacPackageFile, host.world.database(descriptor), DacFriendly(descriptor));
          ok := host.Call(deploy);
          if !ok {
            r := Failure(CallFailed(deploy));
          } else {
            ok := host.Call(CloseConnection);
            r := Success(());
          }
        }
      }
      ok := host.Call(DisposeConnection);
    }

    method DeployLocalDB(dacPackageFile: string) returns (r: Result<(), Fault>)
      modifies host
      ensures var run := DeployLocalRun(host.world, old(host.attached), descriptor, dacPackageFile);
        host.log == old(host.log) + run.events && host.attached == run.attached && r == run.result
    {
      ghost var log0 := host.log;
      ghost var grant := GrantRun(host.world, host.attached, descriptor);
      r := GrantFileAccessForAttach();
      if r.Failure? {
        return;
      }
      ghost var deploy := DeployRun(host.world, grant.attached, descriptor, dacPackageFile);
      var deployed := Deploy(dacPackageFile);
      ghost var detach := DetachRun(host.world, deploy.attached, descriptor);
      var detached := DetachDatabase();
      r := if detached.Failure? then detached else deployed;
      assert host.log == log0 + (grant.events + deploy.events + detach.events);
    }

    method DetachDatabase() returns (r: Result<(), Fault>)
      modifies host
      ensures var run := DetachRun(host.world, old(host.attached), descriptor);
        host.log == old(host.log) + run.events && host.attached == run.attached && r == run.result
    {
      var serverName, databaseName := descriptor.dataSource, descriptor.initialCatalog;
      var kill := KillAllProcesses(serverName, databaseName);
      var ok := host.Call(kill);
      if !ok {
        return Failure(CallFailed(kill));
      }
      if databaseName !in host.attached {
        return Success(());
      }
      ok := host.Call(SetSingleUser(databaseName));
      var alter := AlterRollbackImmediately(serverName, databaseName);
      ok := host.Call(alter);
      if !ok {
        return Failure(CallFailed(alter));
      }
      var detach := DetachCall(serverName, databaseName, true);
      ok := host.Call(detach);
      r := if ok then Success(()) else Failure(CallFailed(detach));
    }

    /** The part of ProcessCommand before the callback: open the connection
        and create the command, disposing the connection if either throws. */
    method OpenCommand() returns (r: Result<(), Fault>)
      modifies host
      ensures var open := OpenConnection(descriptor);
        && (Fails(host.world, open) ==>
              && r == Failure(CallFailed(open))
              && host.log == old(host.log) + [open, DisposeConnection]
              && host.attached == old(host.attached))
        && (!Fails(host.world, open) ==> host.attached == Apply(host.world, old(host.attached), open))
        && (!Fails(host.world, open) && Fails(host.world, CreateCommand) ==>
              && r == Failure(CallFailed(CreateCommand))
              && host.log == old(host.log) + [open, CreateCommand, DisposeConnection])
        && (!Fails(host.world, open) && !Fails(host.world, CreateCommand) ==>
              && r.Success?
              && host.log == old(host.log) + [open, CreateCommand])
    {
      var open := OpenConnection(descriptor);
      var ok := host.Call(open);
      if !ok {
        ok := host.Call(DisposeConnection);
        return Failure(CallFailed(open));
      }
      ok := host.Call(CreateCommand);
      if !ok {
        ok := host.Call(DisposeConnection);
        return Failure(CallFailed(CreateCommand));
      }
      r := Success(());
    }

    /** The part of ProcessCommand after the callback: dispose the command, then the connection. */
    method CloseCommand()
      modifies host
      ensures host.log == old(host.log) + [DisposeCommand, DisposeConnection]
      ensures host.attached == old(host.attached)
    {
      var ok := host.Call(DisposeCommand);
      ok := host.Call(DisposeConnection);
    }

    method ExecuteNonQuery(prepare: Prepare) returns (r: Result<int, Fault>)
      modifies host
      ensures var run := ExecuteNonQueryRun(host.world, old(host.attached), descriptor, prepare);
        host.log == old(host.log) + run.events && host.attached == run.attached && r == run.result
    {
      var begun := OpenCommand();
      CommandRun(host.world, old(host.attached), descriptor, NonQueryBody(host.world, prepare));
      if begun.Failure? {
        return Failure(begun.error);
      }
      r := NonQuery(prepare);
      CloseCommand();
    }

    /** The callback part of ExecuteNonQuery. */
    method NonQuery(prepare: Prepare) returns (r: Result<int, Fault>)
      modifies host
      ensures var body := NonQueryBody(host.world, prepare);
        host.log == old(host.log) + body.events && host.attached == old(host.attached) && r == body.result
    {
      if prepare.None? {
        r := Failure(Raised(NullReference));
      } else if prepare.value.Failure? {
        r := Failure(Raised(prepare.value.error));
      } else {
        var call := ExecuteNonQueryCall(prepare.value.value);
        var ok := host.Call(call);
        if ok {
          r := Success(host.world.affectedRows(prepare.value.value));
        } else {
          r := Failure(CallFailed(call));
        }
      }
    }

    /** The reader the query returns, and the events of opening it. */
    method OpenReader(text: string) returns (reader: DataReader?)
      modifies host
      ensures host.log == old(host.log) + [ExecuteReaderCall(text)] && host.attached == old(host.attached)
      ensures reader == null <==> Fails(host.world, ExecuteReaderCall(text))
      ensures reader != null ==> fresh(reader) && reader.Valid() && !reader.hasRow && reader.consumed == 0
      ensures reader != null ==> (reader.names, reader.records) == host.world.results(text)
    {
      var ok := host.Call(ExecuteReaderCall(text));
      if !ok {
        return null;
      }
      var (names, records) := host.world.results(text);
      reader := new DataReader(names, records);
    }

    method GetSingleResult<R>(prepare: Prepare, callback: Option<Row -> Result<R, Error>>) returns (r: Result<Option<R>, Fault>)
      modifies host
      ensures var run := GetSingleResultRun(host.world, old(host.attached), descriptor, prepare, callback);
        host.log == old(host.log) + run.events && host.attached == run.attached && r == run.result
    {
      var begun := OpenCommand();
      CommandRun(host.world, old(host.attached), descriptor, ReaderBody(host.world, prepare, SingleConsumer(callback)));
      if begun.Failure? {
        return Failure(begun.error);
      }
      r := ReadSingle(prepare, callback);
      CloseCommand();
    }

    /** The callback part of GetSingleResult: `function` applied to the first record, if any. */
    method ReadSingle<R>(prepare: Prepare, callback: Option<Row -> Result<R, Error>>) returns (r: Result<Option<R>, Fault>)
      modifies host
      ensures var body := ReaderBody(host.world, prepare, SingleConsumer(callback));
        host.log == old(host.log) + body.events && host.attached == old(host.attached) && r == body.result
    {
      if prepare.None? {
        return Failure(Raised(NullReference));
      } else if prepare.value.Failure? {
        return Failure(Raised(prepare.value.error));
      }
      var text := prepare.value.value;
      var reader := OpenReader(text);
      if reader == null {
        return Failure(CallFailed(ExecuteReaderCall(text)));
      }
      r := Success(None);
      var more := reader.Read();
      if more {
        if callback.None? {
          r := Failure(Raised(NullReference));
        } else {
          var v := callback.value(reader.Current().value);
          r := if v.Success? then Success(Some(v.value)) else Failure(Raised(v.error));
        }
      }
      var ok := host.Call(DisposeReader);
    }

    method GetResults<R>(prepare: Prepare, callback: Option<Row -> Result<R, Error>>) returns (r: Result<seq<R>, Fault>)
      modifies host
      ensures var run := GetResultsRun(host.world, old(host.attached), descriptor, prepare, callback);
        host.log == old(host.log) + run.events && host.attached == run.attached && r == run.result
    {
      var begun := OpenCommand();
      CommandRun(host.world, old(host.attached), descriptor, ReaderBody(host.world, prepare, ListConsumer(callback)));
      if begun.Failure? {
        return Failure(begun.error);
      }
      r := ReadList(prepare, callback);
      CloseCommand();
    }

    /** The callback part of GetResults: ToList over the reader. */
    method ReadList<R>(prepare: Prepare, callback: Option<Row -> Result<R, Error>>) returns (r: Result<seq<R>, Fault>)
      modifies host
      ensures var body := ReaderBody(host.world, prepare, ListConsumer(callback));
        host.log == old(host.log) + body.events && host.attached == old(host.attached) && r == body.result
    {
      if prepare.None? {
        return Failure(Raised(NullReference));
      } else if prepare.value.Failure? {
        return Failure(Raised(prepare.value.error));
      }
      var text := prepare.value.value;
      var reader := OpenReader(text);
      if reader == null {
        return Failure(CallFailed(ExecuteReaderCall(text)));
      }
      assert reader.records[0..] == reader.records;
      var list := DataReaderExtensions.ToList(reader, callback);
      r := Lift(list);
      var ok := host.Call(DisposeReader);
    }

    method GetKeyedResults<K, V>(prepare: Prepare, callback: Option<Row -> Result<V, Error>>, keySelector: Option<V -> Result<K, Error>>)
      returns (r: Result<map<K, V>, Fault>)
      modifies host
      ensures var run := GetKeyedResultsRun(host.world, old(host.attached), descriptor, prepare, callback, keySelector);
        host.log == old(host.log) + run.events && host.attached == run.attached && r == run.result
    {
      var begun := OpenCommand();
      CommandRun(host.world, old(host.attached), descriptor, ReaderBody(host.world, prepare, DictionaryConsumer(callback, keySelector)));
      if begun.Failure? {
        return Failure(begun.error);
      }
      r := ReadDictionary(prepare, callback, keySelector);
      CloseCommand();
    }

    /** The callback part of GetResults with a key selector: ToDictionary over the reader. */
    method ReadDictionary<K, V>(prepare: Prepare, callback: Option<Row -> Result<V, Error>>, keySelector: Option<V -> Result<K, Error>>)
      returns (r: Result<map<K, V>, Fault>)
      modifies host
      ensures var body := ReaderBody(host.world, prepare, DictionaryConsumer(callback, keySelector));
        host.log == old(host.log) + body.events && host.attached == old(host.attached) && r == body.result
    {
      if prepare.None? {
        return Failure(Raised(NullReference));
      } else if prepare.value.Failure? {
        return Failure(Raised(prepare.value.error));
      }
      var text := prepare.value.value;
      var reader := OpenReader(text);
      if reader == null {
        return Failure(CallFailed(ExecuteReaderCall(text)));
      }
      assert reader.records[0..] == reader.records;
      var dictionary := DataReaderExtensions.ToDictionary(reader, callback, keySelector);
      r := Lift(dictionary);
      var ok := host.Call(DisposeReader);
    }
  }

  // ---------------------------------------------------------------------------
  // The static manager

  /** DatabaseManager: the process-wide connection string and the lazily
      created database. Lazy<IDatabase> caches whatever its factory produced,
      an exception included. */
  class DatabaseManager {
    const host: Host
    /** ConnectionString; None while unset. */
    var connectionString: Option<string>
    /** The Lazy<IDatabase>: None until first read, then the value or exception it holds. */
    var database: Option<Result<DatabaseImpl, Error>>

    constructor (host: Host)
      ensures this.host == host && connectionString == None && database == None
    {
      this.host := host;
      connectionString := None;
      database := None;
    }

    method SetConnectionString(connectionString: Option<string>)
      modifies this
      ensures this.connectionString == connectionString
      ensures database == old(database)
    {
      this.connectionString := connectionString;
    }

    /** GetDatabase(connectionString): a new DatabaseImpl over the string. */
    method GetDatabase(connectionString: string) returns (db: DatabaseImpl)
      ensures fresh(db) && db.descriptor == host.world.parse(connectionString) && db.host == host
    {
      db := new DatabaseImpl(host.world.parse(connectionString), host);
    }

    /** Database: the first read runs the factory, which throws
        InvalidOperationException when no connection string is set or it is
        only white space; every later read returns what the first produced. */
    method Database() returns (r: Result<DatabaseImpl, Error>)
      modifies this
      ensures connectionString == old(connectionString)
      ensures database == Some(r)
      ensures old(database).Some? ==> r == old(database).value
      ensures old(database).None? && IsNullOrWhiteSpace(connectionString) ==> r == Failure(InvalidOperation)
      ensures old(database).None? && !IsNullOrWhiteSpace(connectionString) ==>
        r.Success? && fresh(r.value) && r.value.descriptor == host.world.parse(connectionString.value) && r.value.host == host
    {
      if database.Some? {
        return database.value;
      }
      if IsNullOrWhiteSpace(connectionString) {
        r := Failure(InvalidOperation);
      } else {
        var db := GetDatabase(connectionString.value);
        r := Success(db);
      }
      database := Some(r);
    }
  }
}
