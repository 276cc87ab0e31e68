/**
 * The ingestion half of scripts/main.py: `load_excel_to_sql` turns one parsed
 * spreadsheet into rows appended to the EventLog table.
 *
 * The function layer (RenameColumns, ShiftTimestamps, Project, Transform,
 * Ingest, Appended) is the specification; the classes Frame (the DataFrame
 * that the code reshapes step by step) and EventLog (the target table) and
 * the method LoadExcelToSql follow the code's imperative steps and are proved
 * to agree with it.
 */
module Ingestor {
  import opened Wrappers
  import opened ColumnMapping

  /** A spreadsheet cell as the reader delivers it; numbers are integers here. */
  datatype Cell = Text(text: string) | Number(number: int) | Stamp(minutes: int)

  /**
   * `pd.to_datetime` applied to one cell: the instant it denotes, in minutes,
   * or None when the cell cannot be parsed as a date-time.
   */
  type Parser = Cell -> Option<int>

  /** The fixed `pd.Timedelta(minutes=15)` added to every timestamp. */
  const ShiftMinutes: int := 15

  /** A parsed sheet: the header labels and the data rows. */
  datatype Table = Table(header: seq<string>, rows: seq<seq<Cell>>)

  /** Every row has one cell per column, as in any DataFrame. */
  predicate Rectangular(t: Table) {
    forall i :: 0 <= i < |t.rows| ==> |t.rows[i]| == |t.header|
  }

  /** `DataFrame.empty`: the frame has no rows or no columns. */
  predicate IsEmpty(t: Table) {
    |t.rows| == 0 || |t.header| == 0
  }

  /** What `pd.read_excel` gives back: a table, or one of the exceptions it raises. */
  datatype ReadResult =
    | Parsed(table: Table)
    | EmptyDataError
    | FileNotFoundError
    | OtherReadError

  /**
   * What the database does with a bulk append: accept it, or raise a
   * SQLAlchemyError after keeping some number of the rows (no atomicity is
   * assumed).
   */
  datatype DbOutcome = DbOk | DbError(kept: nat)

  /** The exceptions that leave `load_excel_to_sql`. */
  datatype LoadError =
    | EmptyFile                           // ValueError: the file is empty
    | InvalidFile                         // ValueError wrapping EmptyDataError or FileNotFoundError
    | ReadFailed                          // any other reader exception, not caught
    | MissingColumns(names: seq<string>)  // KeyError on column selection
    | UnparseableTimestamp                // pd.to_datetime failure, not caught
    | DatabaseError                       // SQLAlchemyError re-raised

  datatype Outcome = Loaded | Failed(error: LoadError)

  /** The new header after `df.rename(columns=column_mapping)`. */
  function RenameHeader(header: seq<string>): seq<string> {
    seq(|header|, i requires 0 <= i < |header| => Rename(header[i]))
  }

  /** Labels of a table that no rename can confuse with a mapped column. */
  predicate Clean(header: seq<string>) {
    forall c :: 0 <= c < |header| && header[c] !in SourceLabels ==> header[c] !in CanonicalNames
  }

  /**
   * The tables on which the load is modelled: rectangular, and with column
   * labels that stay distinct after the rename (pandas' behaviour on
   * duplicate labels is not modelled).
   */
  predicate Loadable(t: Table) {
    Rectangular(t) && Distinct(RenameHeader(t.header))
  }

  /** Position of the column labelled `x`, or -1 when there is none. */
  function IndexOf(s: seq<string>, x: string): (r: int)
    ensures -1 <= r < |s|
    ensures r == -1 <==> x !in s
    ensures r >= 0 ==> s[r] == x && x !in s[..r]
  {
    if s == [] then -1
    else if s[0] == x then 0
    else
      var k := IndexOf(s[1..], x);
      if k < 0 then -1 else assert s[..k + 1] == [s[0]] + s[1..][..k]; k + 1
  }

  /**
   * Parses column `k` of every row and adds the shift; None as soon as one
   * cell does not parse (pd.to_datetime raises for the whole column).
   */
  function ShiftColumn(rows: seq<seq<Cell>>, k: nat, parse: Parser): (r: Option<seq<seq<Cell>>>)
    requires forall i :: 0 <= i < |rows| ==> k < |rows[i]|
    ensures r.Some? <==> forall i :: 0 <= i < |rows| ==> parse(rows[i][k]).Some?
    ensures r.Some? ==> |r.value| == |rows|
    ensures r.Some? ==> forall i :: 0 <= i < |rows| ==>
      r.value[i] == rows[i][k := Stamp(parse(rows[i][k]).value + ShiftMinutes)]
  {
    if rows == [] then Some([])
    else
      match parse(rows[0][k])
      case None => None
      case Some(m) =>
        match ShiftColumn(rows[1..], k, parse)
        case None => None
        case Some(rest) => Some([rows[0][k := Stamp(m + ShiftMinutes)]] + rest)
  }

  /** The requested labels that the header lacks. */
  function Missing(header: seq<string>, cols: seq<string>): (r: seq<string>)
    ensures forall c :: c in r <==> c in cols && c !in header
    ensures r == [] <==> forall c :: c in cols ==> c in header
  {
    if cols == [] then []
    else (if cols[0] in header then [] else [cols[0]]) + Missing(header, cols[1..])
  }

  /** `df[cols]` when every label in `cols` is a column of `t`. */
  function Select(t: Table, cols: seq<string>): Table
    requires Rectangular(t)
    requires forall c :: c in cols ==> c in t.header
  {
    Table(cols, seq(|t.rows|, i requires 0 <= i < |t.rows| =>
      seq(|cols|, j requires 0 <= j < |cols| => t.rows[i][IndexOf(t.header, cols[j])])))
  }

  /** Step 1, line 94: rename the columns through the mapping. */
  function RenameColumns(t: Table): Table {
    Table(RenameHeader(t.header), t.rows)
  }

  /** Step 2, lines 95-97: replace EventTimestamp by its parsed value plus 15 minutes. */
  function ShiftTimestamps(t: Table, parse: Parser): Result<Table, LoadError>
    requires Rectangular(t)
  {
    var k := IndexOf(t.header, EventTimestamp);
    if k < 0 then Err(MissingColumns([EventTimestamp]))
    else
      match ShiftColumn(t.rows, k, parse)
      case None => Err(UnparseableTimestamp)
      case Some(shifted) => Ok(Table(t.header, shifted))
  }

  /** Step 3, lines 98-99: keep exactly the columns `cols`, in that order. */
  function Project(t: Table, cols: seq<string>): Result<Table, LoadError>
    requires Rectangular(t)
  {
    var missing := Missing(t.header, cols);
    if missing != [] then Err(MissingColumns(missing)) else Ok(Select(t, cols))
  }

  /** Lines 91-99: the whole transform, before anything is written. */
  function Transform(t: Table, parse: Parser): Result<Table, LoadError>
    requires Rectangular(t)
  {
    if IsEmpty(t) then Err(EmptyFile)
    else
      match ShiftTimestamps(RenameColumns(t), parse)
      case Err(e) => Err(e)
      case Ok(shifted) => Project(shifted, CanonicalNames)
  }

  /** The rows a bulk append leaves in the table. */
  function Written(batch: seq<seq<Cell>>, db: DbOutcome): seq<seq<Cell>> {
    match db
    case DbOk => batch
    case DbError(kept) => if kept < |batch| then batch[..kept] else batch
  }

  /** The exception (or normal return) of `load_excel_to_sql`. */
  function Ingest(read: ReadResult, parse: Parser, db: DbOutcome): Outcome
    requires read.Parsed? ==> Rectangular(read.table)
  {
    match read
    case EmptyDataError => Failed(InvalidFile)
    case FileNotFoundError => Failed(InvalidFile)
    case OtherReadError => Failed(ReadFailed)
    case Parsed(t) =>
      match Transform(t, parse)
      case Err(e) => Failed(e)
      case Ok(_) => if db.DbOk? then Loaded else Failed(DatabaseError)
  }

  /** The rows `load_excel_to_sql` appends to the EventLog table. */
  function Appended(read: ReadResult, parse: Parser, db: DbOutcome): seq<seq<Cell>>
    requires read.Parsed? ==> Rectangular(read.table)
  {
    if read.Parsed? && Transform(read.table, parse).Ok? then
      Written(Transform(read.table, parse).value.rows, db)
    else
      []
  }

  /** Every timestamp cell of the source parses. */
  predicate TimestampsParse(t: Table, parse: Parser)
    requires Rectangular(t)
  {
    forall i, c :: 0 <= i < |t.rows| && 0 <= c < |t.header| && t.header[c] == SourceTimestamp ==>
      parse(t.rows[i][c]).Some?
  }

  // ---------------------------------------------------------------------------
  // Properties of the transform

  /** Under Clean, a renamed label is the j-th canonical name iff the source label is the j-th key. */
  lemma RenamedAt(header: seq<string>, c: int, j: int)
    requires Clean(header)
    requires 0 <= c < |header| && 0 <= j < |Mapping|
    ensures Rename(header[c]) == CanonicalNames[j] <==> header[c] == SourceLabels[j]
  {
    if header[c] == SourceLabels[j] {
      RenameLabel(j);
    }
    if Rename(header[c]) == CanonicalNames[j] {
      RenameInverse(header[c], j);
    }
  }

  /** Distinct labels, none of them an unmapped canonical name, stay distinct after the rename. */
  lemma CleanIsLoadable(t: Table)
    requires Rectangular(t) && Distinct(t.header) && Clean(t.header)
    ensures Loadable(t)
  {
    MappingShape();
    var r := RenameHeader(t.header);
    forall a, b | 0 <= a < b < |r| ensures r[a] != r[b] {
      RenamesApart(t.header, a, b);
    }
  }

  lemma RenamesApart(header: seq<string>, a: int, b: int)
    requires Distinct(header) && Clean(header)
    requires 0 <= a < b < |header|
    ensures Rename(header[a]) != Rename(header[b])
  {
    MappingShape();
    var x, y := header[a], header[b];
    if x in SourceLabels {
      var i :| 0 <= i < |Mapping| && SourceLabels[i] == x;
      RenameLabel(i);
      if y in SourceLabels {
        var j :| 0 <= j < |Mapping| && SourceLabels[j] == y;
        RenameLabel(j);
        assert i != j;
      } else {
        assert Rename(y) == y && y !in CanonicalNames;
      }
    } else {
      assert Rename(x) == x && x !in CanonicalNames;
      if y in SourceLabels {
        var j :| 0 <= j < |Mapping| && SourceLabels[j] == y;
        RenameLabel(j);
      } else {
        assert Rename(y) == y;
      }
    }
  }

  /** Under Clean, the renamed header has the j-th canonical name exactly where the source has the j-th key. */
  lemma RenamedHeaderAt(header: seq<string>, j: int)
    requires Clean(header)
    requires 0 <= j < |Mapping|
    ensures CanonicalNames[j] in RenameHeader(header) <==> SourceLabels[j] in header
    ensures forall c :: 0 <= c < |header| ==>
      (RenameHeader(header)[c] == CanonicalNames[j] <==> header[c] == SourceLabels[j])
  {
    forall c | 0 <= c < |header|
      ensures RenameHeader(header)[c] == CanonicalNames[j] <==> header[c] == SourceLabels[j]
    {
      RenamedAt(header, c, j);
    }
  }

  /** On success the output has exactly the canonical columns, in mapping order, and every source row. */
  lemma TransformShape(t: Table, parse: Parser, out: Table)
    requires Rectangular(t)
    requires Transform(t, parse) == Ok(out)
    ensures out.header == CanonicalNames
    ensures |out.rows| == |t.rows|
    ensures Rectangular(out)
  {
    var k := IndexOf(RenameHeader(t.header), EventTimestamp);
    var shifted := ShiftColumn(t.rows, k, parse).value;
    assert |shifted| == |t.rows|;
  }

  /** The empty-table check comes first: an empty table is rejected, and only an empty one. */
  lemma EmptyFileIff(t: Table, parse: Parser)
    requires Rectangular(t)
    ensures Transform(t, parse) == Err(EmptyFile) <==> IsEmpty(t)
  {
  }

  /** A non-empty table without "Timestamp [Local]" fails with a KeyError for EventTimestamp. */
  lemma MissingTimestampRejected(t: Table, parse: Parser)
    requires Rectangular(t) && Clean(t.header)
    requires !IsEmpty(t) && SourceTimestamp !in t.header
    ensures Transform(t, parse) == Err(MissingColumns([EventTimestamp]))
  {
    TimestampColumn(t.header);
  }

  /** With the timestamp column present, one unparseable timestamp fails the load before any projection. */
  lemma UnparseableTimestampRejected(t: Table, parse: Parser)
    requires Rectangular(t) && Distinct(t.header) && Clean(t.header)
    requires !IsEmpty(t) && SourceTimestamp in t.header && !TimestampsParse(t, parse)
    ensures Transform(t, parse) == Err(UnparseableTimestamp)
  {
    TimestampColumn(t.header);
    ShiftOnRenamed(t, parse);
  }

  /** Projection succeeds exactly when every requested column exists, and otherwise names the absent ones. */
  lemma ProjectOutcome(t: Table, cols: seq<string>)
    requires Rectangular(t)
    ensures Project(t, cols).Ok? <==> forall c :: c in cols ==> c in t.header
    ensures Project(t, cols).Err? ==> Project(t, cols) == Err(MissingColumns(Missing(t.header, cols)))
  {
  }

  /**
   * With every timestamp parsed, the load fails only for missing mapped
   * columns, and the KeyError names exactly the canonical names whose source
   * label is absent.
   */
  lemma MissingColumnsReported(t: Table, parse: Parser)
    requires Rectangular(t) && Distinct(t.header) && Clean(t.header)
    requires !IsEmpty(t) && SourceTimestamp in t.header && TimestampsParse(t, parse)
    ensures Transform(t, parse).Ok? <==> forall l :: l in SourceLabels ==> l in t.header
    ensures Transform(t, parse).Err? ==>
      Transform(t, parse).error.MissingColumns? &&
      forall j :: 0 <= j < |Mapping| ==>
        (CanonicalNames[j] in Transform(t, parse).error.names <==> SourceLabels[j] !in t.header)
    ensures Transform(t, parse).Err? ==>
      forall n :: n in Transform(t, parse).error.names ==> n in CanonicalNames
  {
    MappingShape();
    ShiftOnRenamed(t, parse);
    var shifted := ShiftTimestamps(RenameColumns(t), parse).value;
    assert Transform(t, parse) == Project(shifted, CanonicalNames);
    ProjectOutcome(shifted, CanonicalNames);
    MissingAfterRename(t.header);
    forall j | 0 <= j < |Mapping|
      ensures CanonicalNames[j] in shifted.header <==> SourceLabels[j] in t.header
    {
      RenamedHeaderAt(t.header, j);
    }
  }

  /** Under Clean, the renamed header has an EventTimestamp column exactly where the source has "Timestamp [Local]". */
  lemma TimestampColumn(header: seq<string>)
    requires Clean(header)
    ensures IndexOf(RenameHeader(header), EventTimestamp) >= 0 <==> SourceTimestamp in header
    ensures IndexOf(RenameHeader(header), EventTimestamp) >= 0 ==>
      header[IndexOf(RenameHeader(header), EventTimestamp)] == SourceTimestamp
  {
    MappingShape();
    RenamedHeaderAt(header, 0);
  }

  /** With a timestamp column present, the shift succeeds exactly when every timestamp parses. */
  lemma ShiftOnRenamed(t: Table, parse: Parser)
    requires Rectangular(t) && Distinct(t.header) && Clean(t.header)
    requires SourceTimestamp in t.header
    ensures ShiftTimestamps(RenameColumns(t), parse).Ok? <==> TimestampsParse(t, parse)
  {
    TimestampColumn(t.header);
    var k := IndexOf(RenameHeader(t.header), EventTimestamp);
    assert forall c :: 0 <= c < |t.header| && t.header[c] == SourceTimestamp ==> c == k;
  }

  /** Under Clean, projection misses the j-th canonical name exactly when the source lacks the j-th key. */
  lemma MissingAfterRename(header: seq<string>)
    requires Clean(header)
    ensures forall j :: 0 <= j < |Mapping| ==>
      (CanonicalNames[j] in Missing(RenameHeader(header), CanonicalNames) <==> SourceLabels[j] !in header)
  {
    MappingShape();
    forall j | 0 <= j < |Mapping|
      ensures CanonicalNames[j] in Missing(RenameHeader(header), CanonicalNames) <==> SourceLabels[j] !in header
    {
      RenamedHeaderAt(header, j);
    }
  }

  /** The load succeeds exactly when the table is non-empty, has every mapped column and all timestamps parse. */
  lemma TransformSucceedsIff(t: Table, parse: Parser)
    requires Rectangular(t) && Distinct(t.header) && Clean(t.header)
    ensures Transform(t, parse).Ok? <==>
      !IsEmpty(t) && (forall l :: l in SourceLabels ==> l in t.header) && TimestampsParse(t, parse)
  {
    if !IsEmpty(t) {
      if SourceTimestamp !in t.header {
        MissingTimestampRejected(t, parse);
        assert SourceLabels[0] == SourceTimestamp by { MappingShape(); }
      } else if !TimestampsParse(t, parse) {
        UnparseableTimestampRejected(t, parse);
      } else {
        MissingColumnsReported(t, parse);
      }
    }
  }

  /**
   * On success, cell (i, j) of the output comes from row i of the source, from
   * the column labelled with the j-th key: unchanged, except that the timestamp
   * is the parsed local value plus 15 minutes.
   */
  lemma TransformCells(t: Table, parse: Parser, out: Table, i: int, j: int)
    requires Rectangular(t) && Distinct(t.header) && Clean(t.header)
    requires Transform(t, parse) == Ok(out)
    requires 0 <= i < |t.rows| && 0 <= j < |Mapping|
    ensures SourceLabels[j] in t.header
    ensures forall c :: 0 <= c < |t.header| && t.header[c] == SourceLabels[j] ==>
      if SourceLabels[j] == SourceTimestamp then
        parse(t.rows[i][c]).Some? && out.rows[i][j] == Stamp(parse(t.rows[i][c]).value + ShiftMinutes)
      else
        out.rows[i][j] == t.rows[i][c]
  {
    MappingShape();
    var renamed := RenameColumns(t);
    var k := IndexOf(renamed.header, EventTimestamp);
    var shifted := Table(renamed.header, ShiftColumn(t.rows, k, parse).value);
    assert Transform(t, parse) == Project(shifted, CanonicalNames);
    var cj := IndexOf(shifted.header, CanonicalNames[j]);
    assert out.rows[i][j] == shifted.rows[i][cj];
    RenamedHeaderAt(t.header, j);
    RenamedHeaderAt(t.header, 0);
    assert t.header[cj] == SourceLabels[j];
    assert t.header[k] == SourceTimestamp;
    forall c | 0 <= c < |t.header| && t.header[c] == SourceLabels[j]
      ensures if SourceLabels[j] == SourceTimestamp then
          parse(t.rows[i][c]).Some? && out.rows[i][j] == Stamp(parse(t.rows[i][c]).value + ShiftMinutes)
        else
          out.rows[i][j] == t.rows[i][c]
    {
      assert c == cj;
      if SourceLabels[j] == SourceTimestamp {
        assert c == k;
      } else {
        assert c != k;
      }
    }
  }

  /**
   * On success no column of the source that the mapping does not know reaches
   * the output. A corollary of TransformShape under Clean; where each output
   * cell comes from is TransformCells, and the one way an unmapped column does
   * get through is UnmappedCanonicalStandsIn.
   */
  lemma UnmappedColumnsDropped(t: Table, parse: Parser, out: Table)
    requires Rectangular(t) && Clean(t.header)
    requires Transform(t, parse) == Ok(out)
    ensures forall c :: 0 <= c < |t.header| && t.header[c] !in SourceLabels ==> t.header[c] !in out.header
  {
    TransformShape(t, parse, out);
  }

  /**
   * Without Clean, an unmapped source column already carrying a canonical name
   * (other than EventTimestamp) survives the rename under that name and is
   * stored in its place; the mapped label for that name is then necessarily
   * absent. For example a column labelled "EventType" in a sheet without
   * "Event Type [*]" is stored as EventType.
   */
  lemma UnmappedCanonicalStandsIn(t: Table, parse: Parser, out: Table, i: int, c: int, j: int)
    requires Loadable(t)
    requires Transform(t, parse) == Ok(out)
    requires 0 <= i < |t.rows| && 0 <= c < |t.header| && 0 < j < |Mapping|
    requires t.header[c] !in SourceLabels && t.header[c] == CanonicalNames[j]
    ensures SourceLabels[j] !in t.header
    ensures out.rows[i][j] == t.rows[i][c]
  {
    MappingShape();
    MappedLabelAbsent(t.header, c, j);
    var renamed := RenameColumns(t);
    var k := IndexOf(renamed.header, EventTimestamp);
    var shifted := Table(renamed.header, ShiftColumn(t.rows, k, parse).value);
    assert Transform(t, parse) == Project(shifted, CanonicalNames);
    assert renamed.header[c] == CanonicalNames[j];
    assert IndexOf(shifted.header, CanonicalNames[j]) == c;
    assert CanonicalNames[0] != CanonicalNames[j];
    assert k != c;
    assert shifted.rows[i][c] == t.rows[i][c];
  }

  /**
   * Without Clean, an unmapped source column already labelled EventTimestamp
   * (in a sheet without "Timestamp [Local]") is the one parsed, shifted and
   * stored as EventTimestamp.
   */
  lemma UnmappedTimestampStandsIn(t: Table, parse: Parser, out: Table, i: int, c: int)
    requires Loadable(t)
    requires Transform(t, parse) == Ok(out)
    requires 0 <= i < |t.rows| && 0 <= c < |t.header|
    requires t.header[c] !in SourceLabels && t.header[c] == EventTimestamp
    ensures SourceTimestamp !in t.header
    ensures parse(t.rows[i][c]).Some?
    ensures out.rows[i][0] == Stamp(parse(t.rows[i][c]).value + ShiftMinutes)
  {
    MappingShape();
    MappedLabelAbsent(t.header, c, 0);
    var renamed := RenameColumns(t);
    assert renamed.header[c] == EventTimestamp;
    var k := IndexOf(renamed.header, EventTimestamp);
    assert k == c;
    var shifted := Table(renamed.header, ShiftColumn(t.rows, k, parse).value);
    assert Transform(t, parse) == Project(shifted, CanonicalNames);
    assert IndexOf(shifted.header, CanonicalNames[0]) == c;
    assert shifted.rows[i][c] == Stamp(parse(t.rows[i][c]).value + ShiftMinutes);
  }

  /** An unmapped label carrying the j-th canonical name keeps the j-th key out of a Loadable header. */
  lemma MappedLabelAbsent(header: seq<string>, c: int, j: int)
    requires Distinct(RenameHeader(header))
    requires 0 <= c < |header| && 0 <= j < |Mapping|
    requires header[c] !in SourceLabels && header[c] == CanonicalNames[j]
    ensures SourceLabels[j] !in header
  {
    RenameLabel(j);
    forall d | 0 <= d < |header|
      ensures header[d] != SourceLabels[j]
    {
      if d != c {
        assert RenameHeader(header)[d] != RenameHeader(header)[c];
      }
    }
  }

  /**
   * A source timestamp that is already a date-time, which `pd.to_datetime`
   * leaves as it is, is stored 15 minutes later.
   */
  lemma StampShifted(t: Table, parse: Parser, out: Table, i: int, c: int, m: int)
    requires Rectangular(t) && Distinct(t.header) && Clean(t.header)
    requires Transform(t, parse) == Ok(out)
    requires 0 <= i < |t.rows| && 0 <= c < |t.header| && t.header[c] == SourceTimestamp
    requires t.rows[i][c] == Stamp(m) && parse(Stamp(m)) == Some(m)
    ensures out.header[0] == EventTimestamp
    ensures out.rows[i][0] == Stamp(m + ShiftMinutes)
  {
    MappingShape();
    TransformShape(t, parse, out);
    TransformCells(t, parse, out, i, 0);
  }

  // ---------------------------------------------------------------------------
  // Properties of the whole load

  /** Read errors are reported as ValueError (or propagated unchanged) and nothing is written. */
  lemma ReadErrorsReported(read: ReadResult, parse: Parser, db: DbOutcome)
    requires !read.Parsed?
    ensures Ingest(read, parse, db) == Failed(if read.OtherReadError? then ReadFailed else InvalidFile)
    ensures Appended(read, parse, db) == []
  {
  }

  /**
   * Rows are written only after every transform step succeeded; every failure
   * other than the database's own leaves the table unchanged.
   */
  lemma NothingWrittenOnFailure(read: ReadResult, parse: Parser, db: DbOutcome)
    requires read.Parsed? ==> Rectangular(read.table)
    ensures Appended(read, parse, db) != [] ==> read.Parsed? && Transform(read.table, parse).Ok?
    ensures Ingest(read, parse, db).Failed? && Ingest(read, parse, db).error != DatabaseError ==>
      Appended(read, parse, db) == []
  {
  }

  /**
   * A database error is reported only for a fully transformed table, and at
   * most a prefix of its rows can have reached the table.
   */
  lemma DatabaseErrorAfterTransform(read: ReadResult, parse: Parser, db: DbOutcome)
    requires read.Parsed? ==> Rectangular(read.table)
    requires Ingest(read, parse, db) == Failed(DatabaseError)
    ensures read.Parsed? && Transform(read.table, parse).Ok? && db.DbError?
    ensures Appended(read, parse, db) <= Transform(read.table, parse).value.rows
  {
  }

  /** A successful load appends one output row per source row, with the canonical columns. */
  lemma LoadedAppendsEveryRow(read: ReadResult, parse: Parser, db: DbOutcome)
    requires read.Parsed? ==> Rectangular(read.table)
    requires Ingest(read, parse, db) == Loaded
    ensures read.Parsed? && Transform(read.table, parse).Ok?
    ensures Appended(read, parse, db) == Transform(read.table, parse).value.rows
    ensures |Appended(read, parse, db)| == |read.table.rows|
    ensures forall r :: r in Appended(read, parse, db) ==> |r| == |CanonicalNames|
  {
    TransformShape(read.table, parse, Transform(read.table, parse).value);
  }

  // ---------------------------------------------------------------------------
  // The imperative model of load_excel_to_sql

  /** The DataFrame `df` that the code reshapes in place. */
  class Frame {
    var header: seq<string>
    var rows: seq<seq<Cell>>

    function Contents(): Table
      reads this
    {
      Table(header, rows)
    }

    ghost predicate Valid()
      reads this
    {
      Rectangular(Contents())
    }

    constructor (t: Table)
      requires Rectangular(t)
      ensures Valid() && Contents() == t
    {
      header, rows := t.header, t.rows;
    }

    /** `df.rename(columns=column_mapping, inplace=True)`. */
    method RenameInPlace()
      requires Valid()
      modifies this
      ensures Valid()
      ensures Contents() == RenameColumns(old(Contents()))
    {
      header := RenameHeader(header);
    }

    /**
     * `df["EventTimestamp"] = pd.to_datetime(df["EventTimestamp"]) + 15 minutes`:
     * on an exception the frame is left as it was.
     */
    method OverwriteTimestamps(parse: Parser) returns (err: Option<LoadError>)
      requires Valid()
      modifies this
      ensures Valid()
      ensures match ShiftTimestamps(old(Contents()), parse)
        case Ok(t) => err == None && Contents() == t
        case Err(e) => err == Some(e) && Contents() == old(Contents())
    {
      var k := IndexOf(header, EventTimestamp);
      if k < 0 {
        return Some(MissingColumns([EventTimestamp]));
      }
      var shifted := ShiftColumn(rows, k, parse);
      if shifted.None? {
        return Some(UnparseableTimestamp);
      }
      rows := shifted.value;
      err := None;
    }

    /** `df = df[columns_to_load]`; the old frame has no other reference, so it is replaced in place. */
    method SelectInPlace(cols: seq<string>) returns (err: Option<LoadError>)
      requires Valid()
      modifies this
      ensures Valid()
      ensures match Project(old(Contents()), cols)
        case Ok(t) => err == None && Contents() == t
        case Err(e) => err == Some(e) && Contents() == old(Contents())
    {
      var missing := Missing(header, cols);
      if missing != [] {
        return Some(MissingColumns(missing));
      }
      var selected := Select(Contents(), cols);
      header, rows := selected.header, selected.rows;
      err := None;
    }
  }

  /** The EventLog table: append-only storage of canonical rows. */
  class EventLog {
    var rows: seq<seq<Cell>>

    constructor ()
      ensures rows == []
    {
      rows := [];
    }

    /** `df.to_sql("EventLog", if_exists="append")`: ok exactly when no SQLAlchemyError arises. */
    method Append(batch: seq<seq<Cell>>, db: DbOutcome) returns (ok: bool)
      modifies this
      ensures ok == db.DbOk?
      ensures rows == old(rows) + Written(batch, db)
    {
      rows := rows + Written(batch, db);
      ok := db.DbOk?;
    }
  }

  /**
   * `load_excel_to_sql(file_path)`, with the result of reading the file, the
   * timestamp parser and the database's answer given as parameters.
   */
  method LoadExcelToSql(read: ReadResult, parse: Parser, db: DbOutcome, log: EventLog) returns (outcome: Outcome)
    requires read.Parsed? ==> Loadable(read.table)
    modifies log
    ensures outcome == Ingest(read, parse, db)
    ensures log.rows == old(log.rows) + Appended(read, parse, db)
  {
    if !read.Parsed? {
      outcome := Failed(if read.OtherReadError? then ReadFailed else InvalidFile);
      return;
    }
    var df := new Frame(read.table);
    if IsEmpty(df.Contents()) {
      return Failed(EmptyFile);
    }
    df.RenameInPlace();
    var err := df.OverwriteTimestamps(parse);
    if err.Some? {
      return Failed(err.value);
    }
    err := df.SelectInPlace(CanonicalNames);
    if err.Some? {
      return Failed(err.value);
    }
    var ok := log.Append(df.rows, db);
    outcome := if ok then Loaded else Failed(DatabaseError);
  }
}
