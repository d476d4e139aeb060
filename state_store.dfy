/** The MCA.json record a server directory keeps between runs: `start_server`
    writes the request record there and `check_data` reads it back. */
module StateStore {
  import opened Text

  const DATA_FILE_NAME: string := "MCA.json"

  /** What reading and deserialising the file gives: the record, or a failure
      that the source unwraps (a panic). */
  datatype DataFile<R> = Parsed(record: R) | Unparsable

  /** The files present on disk, by full path. A path that is absent cannot be opened. */
  type Disk<R> = map<string, DataFile<R>>

  function DataPath(dir: string): string {
    Join(dir, DATA_FILE_NAME)
  }

  /** How `check_data` ends: the record was copied in, the file could not be
      opened (`Err(())`), or a panic. */
  datatype Load = Loaded | NotFound | NoServerPathPanic | UnreadablePanic
}
