/** The data reader the typed-access layer works over (IDataReader, as
    SqlDataReader implements it): a forward-only cursor over the records of one
    result set, and the per-record operations the layer calls. */
module DataReaders {
  import opened Wrappers
  import opened Strings
  import opened ClrTypes

  /** The record a reader is positioned on: the column names and one cell per column. */
  datatype Row = Row(names: seq<string>, cells: seq<Value>)

  /** IsDBNull(ordinal) and GetValue(ordinal) first locate the cell; an ordinal
      outside the record throws. */
  function CellAt(row: Row, ordinal: int): (r: Result<Value, Error>)
    ensures r.Success? <==> 0 <= ordinal < |row.cells|
    ensures r.Success? ==> r.value == row.cells[ordinal]
    ensures r.Failure? ==> r.error == IndexOutOfRange
  {
    if 0 <= ordinal < |row.cells| then Success(row.cells[ordinal]) else Failure(IndexOutOfRange)
  }

  /** SqlDataReader.GetString: the cell must already hold a string; no conversion is made. */
  function GetString(cell: Value): (r: Result<string, Error>)
    ensures r.Success? <==> cell.Str?
    ensures r.Success? ==> cell == Str(r.value)
    ensures r.Failure? ==> r.error == InvalidCast
  {
    if cell.Str? then Success(cell.s) else Failure(InvalidCast)
  }

  /** SqlDataReader.GetInt32: the cell must already hold an int; no conversion is made. */
  function GetInt32(cell: Value): (r: Result<int, Error>)
    ensures r.Success? <==> cell.I32?
    ensures r.Success? ==> cell == I32(r.value)
    ensures r.Failure? ==> r.error == InvalidCast
  {
    if cell.I32? then Success(cell.n) else Failure(InvalidCast)
  }

  predicate NameMatches(column: string, name: string, ignoreCase: bool) {
    if ignoreCase then EqualsIgnoreCase(column, name) else column == name
  }

  /** The first column whose name matches `name`. */
  function IndexOfName(names: seq<string>, name: string, ignoreCase: bool): (r: Option<nat>)
    ensures r.Some? ==> r.value < |names| && NameMatches(names[r.value], name, ignoreCase)
    ensures r.Some? ==> forall j :: 0 <= j < r.value ==> !NameMatches(names[j], name, ignoreCase)
    ensures r.None? ==> forall j :: 0 <= j < |names| ==> !NameMatches(names[j], name, ignoreCase)
    decreases |names|
  {
    if names == [] then None
    else if NameMatches(names[0], name, ignoreCase) then Some(0)
    else match IndexOfName(names[1..], name, ignoreCase)
      case None => None
      case Some(i) => Some(i + 1)
  }

  /** SqlDataReader.GetOrdinal: the first column whose name equals `name`
      exactly; failing that, the first one equal to it ignoring case; a name
      neither search finds throws IndexOutOfRangeException.
      The case-insensitive pass is modelled with the ASCII folding of
      EqualsIgnoreCase; SqlDataReader compares with the connection's culture
      instead, ignoring case and then also kana type and width. */
  function GetOrdinal(names: seq<string>, name: string): (r: Result<nat, Error>)
    ensures r.Success? ==> r.value < |names| && EqualsIgnoreCase(names[r.value], name)
    ensures r.Failure? <==> forall j :: 0 <= j < |names| ==> !EqualsIgnoreCase(names[j], name)
    ensures r.Failure? ==> r.error == IndexOutOfRange
    ensures name in names ==> r.Success? && names[r.value] == name
    ensures name in names ==> forall j :: 0 <= j < r.value ==> names[j] != name
    ensures name !in names && r.Success? ==>
      forall j :: 0 <= j < r.value ==> !EqualsIgnoreCase(names[j], name)
  {
    match IndexOfName(names, name, false)
    case Some(i) => Success(i)
    case None =>
      match IndexOfName(names, name, true)
      case Some(i) => Success(i)
      case None => Failure(IndexOutOfRange)
  }

  /** A forward-only cursor over the records of one result set. */
  class DataReader {
    const names: seq<string>
    const records: seq<seq<Value>>
    /** How many records Read() has moved over. */
    var consumed: nat
    /** Whether the reader is positioned on a record (the last Read() returned true). */
    var hasRow: bool

    ghost predicate Valid()
      reads this
    {
      consumed <= |records| && (hasRow ==> 1 <= consumed)
    }

    constructor (names: seq<string>, records: seq<seq<Value>>)
      ensures Valid()
      ensures this.names == names && this.records == records
      ensures consumed == 0 && !hasRow
    {
      this.names := names;
      this.records := records;
      consumed := 0;
      hasRow := false;
    }

    /** IDataReader.Read: move to the next record; false once every record has been read. */
    method Read() returns (more: bool)
      requires Valid()
      modifies this
      ensures Valid()
      ensures more == (old(consumed) < |records|)
      ensures consumed == if more then old(consumed) + 1 else old(consumed)
      ensures hasRow == more
    {
      more := consumed < |records|;
      if more {
        consumed := consumed + 1;
      }
      hasRow := more;
    }

    /** The record the reader is on; reading with no current record throws
        InvalidOperationException ("no data is present"). */
    function Current(): (r: Result<Row, Error>)
      reads this
      requires Valid()
      ensures r.Success? <==> hasRow
      ensures r.Success? ==> r.value == Row(names, records[consumed - 1])
      ensures r.Failure? ==> r.error == InvalidOperation
    {
      if hasRow then Success(Row(names, records[consumed - 1])) else Failure(InvalidOperation)
    }
  }
}
