# log-analysis watcher and ingestor, modelled in Dafny

The program watches a Windows folder for newly created spreadsheets. It loads
each `.xlsx` file into the SQL Server table `EventLog`. Loading renames the
columns through a fixed 13-entry mapping, shifts the local timestamp forward by
15 minutes and keeps exactly the mapped columns, in mapping order.

The model has five modules:

- `ColumnMapping` (`column_mapping.dfy`) holds the mapping as an ordered sequence of pairs. It also has the rename rule of `DataFrame.rename` and lemmas about the mapping: 13 entries, distinct keys, distinct values, and the timestamp entry first.
- `NtPath` (`ntpath.dfy`) models `os.path.splitext` under the Windows (`ntpath`) rules. It comes with a lemma that describes the extension without any searching.
- `Ingestor` (`ingestor.dfy`) models `load_excel_to_sql`. The staged functions `RenameColumns`, `ShiftTimestamps`, `Project`, `Transform`, `Ingest` and `Appended` are the specification. The classes `Frame` (the DataFrame that the code changes in place) and `EventLog` (the append-only table) and the method `LoadExcelToSql` follow the code step by step. They are proved to agree with the functions.
- `Watcher` (`watcher.dfy`) models `FileHandler.on_created`: the dispatch decision as a total function, and the handler as a method that returns normally whatever the loader does.
- `Wrappers` (`wrappers.dfy`) holds Option and Result.

Some things are parameters because the model does not compute them:

- the result of reading the file (`ReadResult`: a table, or one of the reader's exceptions);
- timestamp parsing (`Parser`: a cell to minutes, or None when the cell cannot be parsed);
- the database's answer to the bulk append (`DbOutcome`).

The model follows these details of the code:

- A table is "empty" in the sense of `DataFrame.empty`: no rows **or** no columns. Such a table fails with the ValueError raised at line 92, not with an EmptyDataError.
- Only `EmptyDataError` and `FileNotFoundError` from the reader become "invalid file" ValueErrors. Any other reader exception leaves the function unchanged (`ReadFailed`).
- Timestamp parse failures and KeyErrors are not caught inside `load_excel_to_sql`. They reach the handler's generic `except`.
- A mapped source column that is missing raises a KeyError. It is raised at line 95 for the timestamp column and at line 99 for the others. No nulls are filled in.
- The code does not guarantee an all-or-nothing append, and the model does not assume one. On a database error the model lets any prefix of the rows remain (`DbError(kept)`). It claims "nothing written" only for failures before the write.

## Model

| member | source | states |
|---|---|---|
| `ColumnMapping.Mapping` | scripts/column_mapping.py:1-15 | no contract; the 13 label-to-name pairs in literal order; specified by `MappingShape` |
| `ColumnMapping.Rename` | scripts/main.py:94 | no contract; one label under `df.rename(columns=column_mapping)`; specified by `RenameLabel`, `RenameInverse` and `TimestampEntry` |
| `ColumnMapping.ValuesOf` | scripts/main.py:98 | `column_mapping.values()`: the values, one per entry, in entry order |
| `ColumnMapping.Find` | scripts/column_mapping.py:1-15 | dictionary lookup: None exactly when the label is not a key; otherwise some entry holds that key and value |
| `ColumnMapping.MappingShape` | scripts/column_mapping.py:1-15 | the mapping has 13 entries, pairwise distinct keys and pairwise distinct values, and its first entry is `"Timestamp [Local]"` ↦ `"EventTimestamp"` |
| `ColumnMapping.FindEntry` | scripts/column_mapping.py:1-15 | with distinct keys, looking up the key of entry i yields the value of entry i |
| `ColumnMapping.RenameLabel` | scripts/main.py:94 | renaming sends the j-th source label to the j-th canonical name |
| `ColumnMapping.TimestampEntry` | scripts/column_mapping.py:2 | `"Timestamp [Local]"` is renamed to `"EventTimestamp"`, which is among the projected columns |
| `ColumnMapping.RenameInverse` | scripts/column_mapping.py:1-15 | no two mapped labels are renamed to the same name: a mapped label (or an unmapped one that is not a canonical name) renamed to the j-th canonical name is the j-th key |
| `NtPath.LastIndexOf` | scripts/main.py:41 | `rfind`: -1 exactly when the character is absent; otherwise it holds the character and nothing after it does |
| `NtPath.LastSep` | scripts/main.py:41 | index of the last `\` or `/`, with no separator after it |
| `NtPath.SplitExt` | scripts/main.py:41 | `os.path.splitext`: root + extension is the path, and the extension is empty or a dot followed by neither dots nor separators |
| `NtPath.SplitExtIs` | scripts/main.py:41 | e is the extension of p exactly when p ends with e and the last path component before e holds a character other than a dot |
| `Watcher.Dispatch` | scripts/main.py:37-42 | a directory event is ignored; a file event is loaded, with its own path, exactly when the path ends in `.xlsx` (case-sensitive) and the file name has a non-dot character before it |
| `Watcher.IgnoredExamples` | scripts/main.py:37-42 | a directory event (for `export.xlsx`) is ignored, and so are file events for `notes.txt` and `export.XLSX` |
| `Watcher.DotNamesIgnored` | scripts/main.py:41-42 | `.xlsx` and `..xlsx` have no extension, so they are ignored |
| `Watcher.LoadedExamples` | scripts/main.py:41-42 | `export.tar.xlsx` is loaded (only the last extension counts), and so is a `/`-separated `a.xlsx` |
| `Watcher.HandlerResult` | scripts/main.py:37-50 | no contract; what `on_created` ends with; specified by `HandlerContainsFailures` and `FileHandler.OnCreated` |
| `Watcher.HandlerAppends` | scripts/main.py:37-50 | no contract; the rows an event adds; specified by `HandlerContainsFailures` and `FileHandler.OnCreated` |
| `Watcher.HandlerContainsFailures` | scripts/main.py:44-50 | every loader outcome is absorbed: ignored exactly when dispatch ignores; ingested exactly when the load succeeded; a failure is logged with the loader's own error and, unless it is a database error, adds no rows |
| `Watcher.FileHandler.OnCreated` | scripts/main.py:30-50 | returns normally for every event and loader outcome with the dispatch decision and loader result, and the table gains exactly the loader's rows (none for an ignored event) |
| `Watcher.FailedFileDoesNotStopNext` | scripts/main.py:44-50 | after a file whose load fails before the write, the next accepted file loads and the table holds exactly its rows on top of the earlier contents |
| `Ingestor.RenameHeader` | scripts/main.py:94 | no contract; the header after the rename; specified by `RenamedHeaderAt` and `CleanIsLoadable` |
| `Ingestor.RenameColumns` | scripts/main.py:94 | no contract; the table after the rename, rows untouched; specified by `TimestampColumn` and `Frame.RenameInPlace` |
| `Ingestor.IsEmpty` | scripts/main.py:91 | no contract; `df.empty`; specified by `EmptyFileIff` |
| `Ingestor.IndexOf` | scripts/main.py:95-99 | the column lookup `df[label]`: -1 exactly when the label is absent, otherwise a position holding it with no earlier one |
| `Ingestor.ShiftTimestamps` | scripts/main.py:95-97 | no contract; the overwrite of `EventTimestamp`; specified by `ShiftOnRenamed`, `ShiftColumn` and `Frame.OverwriteTimestamps` |
| `Ingestor.Select` | scripts/main.py:99 | no contract; `df[cols]` when every label is present; specified by `TransformCells` and `TransformShape` |
| `Ingestor.Project` | scripts/main.py:98-99 | no contract; `df[column_mapping.values()]` with its KeyError; specified by `ProjectOutcome` |
| `Ingestor.Transform` | scripts/main.py:91-99 | no contract; the whole transform before the write; specified by `TransformSucceedsIff`, `TransformShape`, `TransformCells` and the rejection lemmas |
| `Ingestor.Written` | scripts/main.py:109 | no contract; the rows a bulk append leaves; specified by `DatabaseErrorAfterTransform` and `EventLog.Append` |
| `Ingestor.Ingest` | scripts/main.py:75-118 | no contract; the outcome of `load_excel_to_sql`; specified by `ReadErrorsReported`, `NothingWrittenOnFailure`, `DatabaseErrorAfterTransform` and `LoadExcelToSql` |
| `Ingestor.Appended` | scripts/main.py:75-118 | no contract; the rows `load_excel_to_sql` adds; specified by `LoadedAppendsEveryRow`, `NothingWrittenOnFailure` and `LoadExcelToSql` |
| `Ingestor.ShiftColumn` | scripts/main.py:95-97 | the column is converted exactly when every one of its cells parses; then every row keeps its position and other cells, with that cell replaced by the parsed minutes + 15 |
| `Ingestor.Missing` | scripts/main.py:99 | the requested labels that are not columns, and only those; empty exactly when every requested label is a column |
| `Ingestor.RenamedAt` | scripts/main.py:94 | without unmapped canonical labels, a renamed label is the j-th canonical name iff the source label is the j-th key |
| `Ingestor.CleanIsLoadable` | scripts/main.py:94 | distinct source labels, none an unmapped canonical name, stay distinct after the rename |
| `Ingestor.RenamedHeaderAt` | scripts/main.py:94 | the renamed header has the j-th canonical name exactly at the positions of the j-th source label |
| `Ingestor.TimestampColumn` | scripts/main.py:94-95 | the renamed header has an `EventTimestamp` column exactly when the source has `"Timestamp [Local]"`, at that column's position |
| `Ingestor.ShiftOnRenamed` | scripts/main.py:95-97 | with the timestamp column present, the shift succeeds exactly when every source timestamp parses |
| `Ingestor.ProjectOutcome` | scripts/main.py:98-99 | `df[cols]` succeeds exactly when every requested label is a column; otherwise it fails with a KeyError listing the absent labels |
| `Ingestor.TransformShape` | scripts/main.py:94-99 | on success the output header is exactly the canonical names in mapping order, with one output row per source row, each with 13 cells |
| `Ingestor.EmptyFileIff` | scripts/main.py:91-92 | a table is rejected as empty exactly when it has no rows or no columns, before any rename, shift or write |
| `Ingestor.MissingTimestampRejected` | scripts/main.py:95 | a non-empty table without `"Timestamp [Local]"` fails with a KeyError for `EventTimestamp` |
| `Ingestor.UnparseableTimestampRejected` | scripts/main.py:95-97 | with the timestamp column present, one unparseable timestamp fails the load with a parse error, before the projection |
| `Ingestor.MissingColumnsReported` | scripts/main.py:98-99 | with all timestamps parsed, the load succeeds exactly when every mapped source column is present; otherwise the KeyError names only canonical names, and exactly those whose source label is absent |
| `Ingestor.TransformSucceedsIff` | scripts/main.py:91-99 | the transform succeeds exactly when the table is non-empty, has every mapped source column and all its timestamps parse |
| `Ingestor.TransformCells` | scripts/main.py:94-99 | on success, output cell (i, j) comes from source row i and the column labelled with the j-th key: unchanged, except that `EventTimestamp` is the parsed local timestamp + 15 minutes |
| `Ingestor.UnmappedColumnsDropped` | scripts/main.py:98-99 | no source column outside the mapping reaches the output; a corollary of `TransformShape` under `Clean` |
| `Ingestor.MappedLabelAbsent` | scripts/main.py:94 | if an unmapped label already carries the j-th canonical name and the renamed labels are distinct, the j-th key is absent |
| `Ingestor.UnmappedCanonicalStandsIn` | scripts/main.py:94-99 | an unmapped column already named like a canonical column other than `EventTimestamp` (an `EventType` column in a sheet without `"Event Type [*]"`) is stored in that canonical column, cell for cell |
| `Ingestor.UnmappedTimestampStandsIn` | scripts/main.py:94-99 | an unmapped column already labelled `EventTimestamp` (in a sheet without `"Timestamp [Local]"`) is parsed, shifted by 15 minutes and stored as `EventTimestamp` |
| `Ingestor.StampShifted` | scripts/main.py:95-97 | a source timestamp that is already a date-time, which the parser keeps as it is, is stored 15 minutes later in `EventTimestamp` |
| `Ingestor.ReadErrorsReported` | scripts/main.py:112-114 | `EmptyDataError` and `FileNotFoundError` become an invalid-file ValueError, other reader errors pass through, and nothing is written |
| `Ingestor.NothingWrittenOnFailure` | scripts/main.py:91-109 | rows reach the table only when the read and every transform step succeeded; every failure other than the database's own writes nothing |
| `Ingestor.DatabaseErrorAfterTransform` | scripts/main.py:109-118 | a database error is reported only after the whole transform succeeded, and only a prefix of its output rows can have been kept |
| `Ingestor.LoadedAppendsEveryRow` | scripts/main.py:94-110 | a successful load appends exactly the transformed rows: one per source row, in order, each with the 13 canonical columns |
| `Ingestor.Frame.RenameInPlace` | scripts/main.py:94 | the frame's header becomes the renamed header and the rows are untouched |
| `Ingestor.Frame.OverwriteTimestamps` | scripts/main.py:95-97 | the frame becomes the shifted table, or stays as it was and reports the KeyError or parse error |
| `Ingestor.Frame.SelectInPlace` | scripts/main.py:98-99 | the frame becomes the projection, or stays as it was and reports the KeyError |
| `Ingestor.EventLog.Append` | scripts/main.py:109 | the table gains the batch when the database accepts it, and at most a prefix of it when it does not; the result says which |
| `Ingestor.LoadExcelToSql` | scripts/main.py:75-118 | the outcome is `Ingest` of the inputs (the exception the code raises, or a normal return) and the table gains exactly `Appended`, written only after every step |

## Left out

- `start_monitoring` (scripts/main.py:53-72): the observer thread, the sleep loop and the `KeyboardInterrupt` shutdown are concurrency and OS notification plumbing.
- Spreadsheet parsing by `pd.read_excel`: its result is the `ReadResult` parameter.
- Date-time parsing by `pd.to_datetime`: it is the `Parser` parameter, applied cell by cell. A missing cell that pandas turns into `NaT` (not a time) cannot be represented. Such a cell has to be modelled as parsing or as failing.
- Cell values are text, integers or instants in whole minutes. Floating-point numbers and sub-minute times are not modelled.
- The SQL side: `create_engine`, the hard-coded connection string and the real insert are reduced to `EventLog.Append` with a `DbOutcome`. Exceptions other than `SQLAlchemyError` that the driver might raise are not modelled.
- Logging (`set_logger`, `logger.*`) and the `print` of the path: output side effects only.
- The hard-coded watch path (scripts/main.py:123). `folder_to_track` is kept as a field but `on_created` never reads it.
- The text of the exception messages. A KeyError carries only the list of absent canonical names.
- Ingestor.LoadExcelToSql: requires that the column labels stay distinct after the rename (`Loadable`). Pandas' behaviour on duplicate column labels is not modelled.
- Watcher.FileHandler.OnCreated: inherits the same requirement on the table through the loader.
- Ingestor.TransformCells: assumes that no unmapped source label equals a canonical name (`Clean`). Without it an unmapped column named, say, `EventTimestamp` stands in for the mapped one, as it would in pandas (`Ingestor.UnmappedTimestampStandsIn`; `Ingestor.UnmappedCanonicalStandsIn` for the other names).
- Ingestor.TransformSucceedsIff: assumes that no unmapped source label equals a canonical name (`Clean`). Without it an unmapped column named, say, `EventTimestamp` stands in for the mapped one, as it would in pandas (`Ingestor.UnmappedTimestampStandsIn`; `Ingestor.UnmappedCanonicalStandsIn` for the other names).
- Ingestor.MissingColumnsReported: assumes that no unmapped source label equals a canonical name (`Clean`). Without it an unmapped column named, say, `EventTimestamp` stands in for the mapped one, as it would in pandas (`Ingestor.UnmappedTimestampStandsIn`; `Ingestor.UnmappedCanonicalStandsIn` for the other names).
- Ingestor.UnparseableTimestampRejected: assumes that no unmapped source label equals a canonical name (`Clean`). Without it an unmapped column named, say, `EventTimestamp` stands in for the mapped one, as it would in pandas (`Ingestor.UnmappedTimestampStandsIn`; `Ingestor.UnmappedCanonicalStandsIn` for the other names).
- Ingestor.MissingTimestampRejected: assumes that no unmapped source label equals a canonical name (`Clean`). Without it an unmapped column named, say, `EventTimestamp` stands in for the mapped one, as it would in pandas (`Ingestor.UnmappedTimestampStandsIn`; `Ingestor.UnmappedCanonicalStandsIn` for the other names).
- Ingestor.UnmappedColumnsDropped: assumes that no unmapped source label equals a canonical name (`Clean`). `Ingestor.UnmappedCanonicalStandsIn` states what happens without it: such a column stands in for the mapped one, as it would in pandas.
