/**
 * The in-memory file reader: a path to content table that reads only
 * look up.
 */
module Reader {
  import opened Domain

  /** Reading from a table: the stored content, or FileNotFound. */
  function Lookup(files: map<string, string>, path: string): (r: Result<string>)
    ensures r.Ok? <==> path in files
    ensures r.Ok? ==> r.value == files[path]
    ensures r.Err? ==> r.error == FileNotFound
  {
    if path in files then Ok(files[path]) else Err(FileNotFound)
  }

  /** InMemoryFileReader: reads only look `Files` up. */
  class InMemoryFileReader {
    var Files: map<string, string>

    /** A fresh reader has an empty table. */
    constructor ()
      ensures Files == map[]
    {
      Files := map[];
    }

    /** Read: the stored content (possibly empty), or FileNotFound. */
    method Read(path: string) returns (r: Result<string>)
      ensures r == Lookup(Files, path)
    {
      if path !in Files {
        return Err(FileNotFound);
      }
      return Ok(Files[path]);
    }
  }

  /** A stored empty file reads back as "" with no error. */
  method ReadEmptyFile(path: string) returns (r: Result<string>)
    ensures r == Ok("")
  {
    var reader := new InMemoryFileReader();
    reader.Files := map[path := ""];
    r := reader.Read(path);
  }
}
