/**
 * The in-memory writer and reader over one table: the reader is handed
 * the table the writer has updated, as the fakes' exported `Files` fields
 * allow.
 */
module RoundTrip {
  import opened Domain
  import opened Writer
  import opened Reader

  /** A writer over `files`, written at `path`, then a reader over its table. */
  method WriteThenShare(files: map<string, string>, path: string, content: string)
    returns (reader: InMemoryFileReader)
    ensures fresh(reader)
    ensures reader.Files == files[path := content]
  {
    var w := new InMemoryFileWriter();
    w.Files := files;
    var _ := w.Write(path, content);
    reader := new InMemoryFileReader();
    reader.Files := w.Files;
  }

  /** A path just written reads back as the written content. */
  method ReadAfterWrite(files: map<string, string>, path: string, content: string)
    returns (r: Result<string>)
    ensures r == Ok(content)
  {
    var reader := WriteThenShare(files, path, content);
    r := reader.Read(path);
  }

  /** Writing one path leaves the read of every other path as it was. */
  method ReadOtherAfterWrite(files: map<string, string>, path: string, content: string, other: string)
    returns (r: Result<string>)
    requires other != path
    ensures r == Lookup(files, other)
  {
    var reader := WriteThenShare(files, path, content);
    r := reader.Read(other);
  }
}
