/**
 * The watching half of scripts/main.py: `FileHandler.on_created` decides
 * which creation events reach the loader and contains every failure of the
 * load, so that one bad file never stops the watcher.
 */
module Watcher {
  import opened NtPath
  import opened Ingestor

  /** A file-system creation event as the observer delivers it. */
  datatype Event = Created(isDirectory: bool, srcPath: string)

  /** What the handler does with an event. */
  datatype Action = Ignore | Load(path: string)

  /** The one extension the handler accepts, compared case-sensitively. */
  const ExcelExtension: string := ".xlsx"

  /**
   * The filter of `on_created`: directories are ignored; a file is loaded
   * exactly when its path ends in ".xlsx" and its name has something other
   * than dots in front of that extension.
   */
  function Dispatch(e: Event): (a: Action)
    ensures a == if !e.isDirectory && EndsWith(e.srcPath, ExcelExtension) &&
                    HasStem(e.srcPath, |e.srcPath| - |ExcelExtension|)
                 then Load(e.srcPath) else Ignore
  {
    SplitExtIs(e.srcPath, ExcelExtension);
    if e.isDirectory then Ignore
    else if SplitExt(e.srcPath).1 == ExcelExtension then Load(e.srcPath)
    else Ignore
  }

  /** Directories, other extensions and a differently cased extension are ignored. */
  lemma IgnoredExamples()
    ensures Dispatch(Created(true, "C:\\logs\\export.xlsx")) == Ignore
    ensures Dispatch(Created(false, "C:\\logs\\notes.txt")) == Ignore
    ensures Dispatch(Created(false, "C:\\logs\\export.XLSX")) == Ignore
  {
  }

  /** A name made only of dots before ".xlsx" has no extension at all, so it is ignored. */
  lemma DotNamesIgnored()
    ensures Dispatch(Created(false, "C:\\logs\\.xlsx")) == Ignore
    ensures Dispatch(Created(false, "C:\\logs\\..xlsx")) == Ignore
  {
    var dotOnly := "C:\\logs\\.xlsx";
    assert !HasStem(dotOnly, |dotOnly| - 5) by {
      assert dotOnly[7] == '\\';
    }
    var dotsOnly := "C:\\logs\\..xlsx";
    assert !HasStem(dotsOnly, |dotsOnly| - 5) by {
      assert dotsOnly[7] == '\\' && dotsOnly[8] == '.';
    }
  }

  /** Only the last extension counts, and `/` separates components as the backslash does. */
  lemma LoadedExamples()
    ensures Dispatch(Created(false, "C:\\logs\\export.tar.xlsx")) == Load("C:\\logs\\export.tar.xlsx")
    ensures Dispatch(Created(false, "C:/logs/a.xlsx")) == Load("C:/logs/a.xlsx")
  {
    var tar := "C:\\logs\\export.tar.xlsx";
    assert tar[|tar| - 5..] == ExcelExtension;
    assert HasStem(tar, |tar| - 5) by {
      assert tar[8] != '.' && forall k :: 8 <= k < |tar| - 5 ==> !IsSep(tar[k]);
    }
    var fwd := "C:/logs/a.xlsx";
    assert fwd[|fwd| - 5..] == ExcelExtension;
    assert HasStem(fwd, |fwd| - 5) by {
      assert fwd[8] != '.' && !IsSep(fwd[8]);
    }
  }

  /** What `on_created` ends with: it always returns, logging any failure of the load. */
  datatype Handled = Ignored | Ingested | FailureLogged(error: LoadError)

  /** The handler's reaction to an event, given what loading the file would do. */
  function HandlerResult(e: Event, read: ReadResult, parse: Parser, db: DbOutcome): Handled
    requires read.Parsed? ==> Rectangular(read.table)
  {
    match Dispatch(e)
    case Ignore => Ignored
    case Load(_) =>
      match Ingest(read, parse, db)
      case Loaded => Ingested
      case Failed(err) => FailureLogged(err)
  }

  /** The rows an event adds to the EventLog table. */
  function HandlerAppends(e: Event, read: ReadResult, parse: Parser, db: DbOutcome): seq<seq<Cell>>
    requires read.Parsed? ==> Rectangular(read.table)
  {
    if Dispatch(e).Load? then Appended(read, parse, db) else []
  }

  /**
   * Every outcome of the loader is absorbed: an ignored event writes nothing,
   * and a loaded event whose load fails is logged with that failure, adding
   * no rows unless the database itself failed part-way.
   */
  lemma HandlerContainsFailures(e: Event, read: ReadResult, parse: Parser, db: DbOutcome)
    requires read.Parsed? ==> Rectangular(read.table)
    ensures HandlerResult(e, read, parse, db) == Ignored <==> Dispatch(e) == Ignore
    ensures HandlerResult(e, read, parse, db) == Ignored ==> HandlerAppends(e, read, parse, db) == []
    ensures Dispatch(e).Load? ==>
      (HandlerResult(e, read, parse, db) == Ingested <==> Ingest(read, parse, db) == Loaded)
    ensures forall err :: HandlerResult(e, read, parse, db) == FailureLogged(err) ==>
      Ingest(read, parse, db) == Failed(err) &&
      (err != DatabaseError ==> HandlerAppends(e, read, parse, db) == [])
  {
    NothingWrittenOnFailure(read, parse, db);
  }

  /** The event handler registered with the observer. */
  class FileHandler {
    /** The folder being monitored, set once at construction. */
    const folderToTrack: string

    constructor (folder: string)
      ensures folderToTrack == folder
    {
      folderToTrack := folder;
    }

    /**
     * `on_created(event)`. `read` stands for what reading the created file
     * gives, `parse` for the timestamp parser and `db` for the database's
     * answer; the loader runs only for an accepted event and its failures are
     * caught here.
     */
    method OnCreated(e: Event, read: ReadResult, parse: Parser, db: DbOutcome, log: EventLog)
      returns (h: Handled)
      requires read.Parsed? ==> Loadable(read.table)
      modifies log
      ensures h == HandlerResult(e, read, parse, db)
      ensures log.rows == old(log.rows) + HandlerAppends(e, read, parse, db)
    {
      if e.isDirectory {
        return Ignored;
      }
      var (_, extension) := SplitExt(e.srcPath);
      if extension == ExcelExtension {
        var outcome := LoadExcelToSql(read, parse, db, log);
        match outcome
        case Loaded => h := Ingested;
        case Failed(err) => h := FailureLogged(err);
      } else {
        h := Ignored;
      }
    }
  }

  /**
   * Failure isolation: after a file whose load fails before the write, the
   * next accepted file still loads, and the table holds exactly its rows on
   * top of what it held before.
   */
  method FailedFileDoesNotStopNext(handler: FileHandler, log: EventLog, parse: Parser,
                                   first: Event, firstRead: ReadResult, firstDb: DbOutcome,
                                   second: Event, secondRead: ReadResult, secondDb: DbOutcome)
    returns (h1: Handled, h2: Handled)
    requires firstRead.Parsed? ==> Loadable(firstRead.table)
    requires secondRead.Parsed? ==> Loadable(secondRead.table)
    requires Dispatch(first).Load? && Dispatch(second).Load?
    requires Ingest(firstRead, parse, firstDb).Failed? && Ingest(firstRead, parse, firstDb).error != DatabaseError
    requires Ingest(secondRead, parse, secondDb) == Loaded
    modifies log
    ensures h1.FailureLogged? && h2 == Ingested
    ensures log.rows == old(log.rows) + Appended(secondRead, parse, secondDb)
  {
    HandlerContainsFailures(first, firstRead, parse, firstDb);
    assert HandlerAppends(first, firstRead, parse, firstDb) == [];
    assert HandlerAppends(second, secondRead, parse, secondDb) == Appended(secondRead, parse, secondDb);
    ghost var before := log.rows;
    h1 := handler.OnCreated(first, firstRead, parse, firstDb, log);
    assert log.rows == before;
    h2 := handler.OnCreated(second, secondRead, parse, secondDb, log);
  }
}
