/**
 * The in-memory file writer: a path to content table that every write
 * updates in place.
 */
module Writer {
  import opened Domain
  import opened Utf8

  /** InMemoryFileWriter: stores written content in `Files`. */
  class InMemoryFileWriter {
    var Files: map<string, string>

    /** A fresh writer has an empty table. */
    constructor ()
      ensures Files == map[]
    {
      Files := map[];
    }

    /**
     * Write: `path` now holds `content`, every other entry is unchanged,
     * and the write reports the content's byte length and never fails.
     */
    method Write(path: string, content: string) returns (r: Result<int>)
      modifies this
      ensures Files == old(Files)[path := content]
      ensures r == Ok(ByteLen(content))
    {
      Files := Files[path := content];
      return Ok(ByteLen(content));
    }
  }

  /** Writing the same path twice leaves only the second content. */
  method WriteTwice(path: string, first: string, second: string) returns (files: map<string, string>)
    ensures files == map[path := second]
  {
    var w := new InMemoryFileWriter();
    var _ := w.Write(path, first);
    var _ := w.Write(path, second);
    files := w.Files;
  }

  /**
   * A writer holding `files` and then written at `path`: the table gains
   * `path`, `path` holds `content`, and no other entry changes.
   */
  method WriteKeepsOtherEntries(files: map<string, string>, path: string, content: string)
    returns (after: map<string, string>)
    ensures after.Keys == files.Keys + {path}
    ensures path in after && after[path] == content
    ensures forall k :: k in files && k != path ==> after[k] == files[k]
  {
    var w := new InMemoryFileWriter();
    w.Files := files;
    var _ := w.Write(path, content);
    after := w.Files;
  }
}
