# markdown-writer-mcp: the JSON query engine and the in-memory file collaborators, in Dafny

This project models the core of the markdown-writer MCP server. The server exposes file tools (write,
verify, read, JSON query) to a client. Its one real algorithm is the `json_query` tool. Given a parsed
JSON document, the tool does four things:

- it walks an array path of object keys to a target node;
- it requires that node to be an array;
- it keeps, in original order, the object elements that satisfy every filter (eq, neq, contains,
  is_null, is_not_null, AND-combined);
- it truncates the matches to a positive limit and reports `count = len(result)`.

Around it the project models the path validation of `pathutil.Resolve`, the in-memory fakes of the file
writer, reader and verifier (path to content tables), and the sentinel errors of the domain package.

Modules, one per source file:

- `Domain` (`domain.dfy`): the sentinel errors as the enum `Error`, plus `Result` and `Option`.
- `JsonQuery` (`json_query.dfy`): the JSON value tree, filters, navigation, equality, the filter pass,
  the limit and the handler.
  - Spec functions: `Navigate`, `InArray`, `MatchesAll`, `Select`, `Truncate`, `Query`.
  - Methods that mirror the source's loops: `NavigateToPath`, `ArrayContains`, `MatchesAllFilters`,
    `JsonQueryHandler`. Each is proved equal to its spec function.
- `PathUtil` (`resolver.dfy`): `Resolve`.
- `Utf8` (`utf8.dfy`): the UTF-8 byte length of a string, which Go's `len` reports.
- `Verifier` (`verifier.dfy`): the line counter and `InMemoryFileVerifier`.
- `Writer` (`writer.dfy`): `InMemoryFileWriter`, whose `Write` updates its `Files` map in place.
- `Reader` (`reader.dfy`): `InMemoryFileReader`.
- `RoundTrip` (`roundtrip.dfy`): a writer and a reader over one table, written and then read.

Modelling choices:

- A JSON number is its value (`Num(n: real)`). JSON text cannot produce NaN or infinities, so float64
  `==` between two decoded numbers is plain value equality. A Go `int` filter operand is represented by
  its numeric value (`IntOperand`), and the float64/int bridge of `valuesEqual` becomes value equality.
- Go's `a == b` on two interface values panics when both are slices or both are maps.
  `valuesEqual` falls back to that comparison. The model turns the panic into exact preconditions:
  - `Comparable` for one comparison.
  - `FilterSafe` for one filter.
  - `MatchSafe` for a filter list. It respects the early exit of `matchesAllFilters`: a filter after a
    failing one is never evaluated, so it cannot panic.
  - `QuerySafe` for a whole query. `Query` requires it, and `ScalarOperandsAreSafe` shows that filters
    whose operands are scalars (every operand of the tool's tests) always meet it.
  - `arrayContains` panics exactly when some element has the same container kind as the value, so
    `contains` needs every element comparable.
- `filepath.Abs` and `filepath.Clean` depend on the working directory and the operating system. They are
  the parameters `abs` and `clean` of `Resolve`. Its precondition `AbsContract` states their promise: Abs
  fails or gives an absolute path, and Clean keeps a path absolute.
- A Go string is a byte sequence and `len` counts bytes. The model's strings are sequences of Unicode
  scalar values, and `Utf8.ByteLen` gives the length of their UTF-8 encoding, which is what the written
  and verified sizes report.

## Model

| member | source | states |
|---|---|---|
| `JsonQuery.Navigate` | internal/tools/json_query.go:125-139 | navigation can only fail with ArrayPathNotFound |
| `JsonQuery.NavigateToPath` | internal/tools/json_query.go:125-139 | the loop reassigning `current` key by key returns exactly what `Navigate` specifies, including each early ArrayPathNotFound return |
| `JsonQuery.NavigateAppend` | internal/tools/json_query.go:127-137 | keys are consumed in order: navigating `p + q` is navigating `p` and then `q` from the node reached, and an error on `p` is propagated unchanged |
| `JsonQuery.NavigateStopsAtMissingKey` | internal/tools/json_query.go:128-135 | once the node reached is not an object or lacks the next key, navigation fails with ArrayPathNotFound whatever keys follow |
| `JsonQuery.EmptyArrayPathIsRoot` | internal/tools/json_query.go:72-78 | an empty array path targets the document root |
| `JsonQuery.ValuesEqual` | internal/tools/json_query.go:198-227 | for every pair Go can compare without panicking, the result is value equality: numbers by value, strings and bools by equality, null equals null, and any two values of different kinds (a string against a number, say) are unequal |
| `JsonQuery.ScalarOperandsAreSafe` | internal/tools/json_query.go:226 | the fallback `a == b` never panics when the filter operand is null, a bool, a number or a string, so any document can be queried with such filters |
| `JsonQuery.IntOperandBridge` | internal/tools/json_query.go:201-216 | a Go int operand equals a decoded float64 exactly when their numeric values agree, in both argument orders |
| `JsonQuery.InArray` | internal/tools/json_query.go:229-237 | an array contains a value under `valuesEqual` exactly when the value is an element of the array |
| `JsonQuery.ArrayContains` | internal/tools/json_query.go:230-237 | the early-exit loop returns true exactly when some element is equal to the value |
| `JsonQuery.GetFieldValue` | internal/tools/json_query.go:190-195 | the field is reported present exactly when the key is in the object, and then with its stored value (a direct, non-dotted lookup) |
| `JsonQuery.ApplyFilter` | internal/tools/json_query.go:152-187 | eq holds iff the field is present and equal to the value; neq iff absent or unequal; contains iff present, an array, and holding an element equal to the value; is_null iff absent or null; is_not_null iff present and non-null; any other operator is false |
| `JsonQuery.NeqComplementsEqWhenPresent` | internal/tools/json_query.go:156-166 | on an absent field eq is false and neq is true; on a present field neq is the negation of eq |
| `JsonQuery.IsNotNullComplementsIsNull` | internal/tools/json_query.go:178-182 | is_not_null is the exact complement of is_null for every item and field |
| `JsonQuery.MatchesAllFilters` | internal/tools/json_query.go:142-149 | the early-exit loop returns true exactly when every filter holds (an empty list holds) |
| `JsonQuery.MatchesAllAppend` | internal/tools/json_query.go:142-149 | AND-combination: two filter lists together hold iff each list holds |
| `JsonQuery.SelectIsOrderedSelection` | internal/tools/json_query.go:87-97 | the filter pass yields exactly the object elements that satisfy every filter, at strictly increasing positions of the array; non-objects and failing objects are skipped |
| `JsonQuery.NoFiltersKeepEveryObject` | internal/tools/json_query_test.go:171-182 | with no filters the result is every object element of the array, in order |
| `JsonQuery.SelectSnoc` | internal/tools/json_query.go:87-97 | one more array element adds that element to the end of the result exactly when it is an object matching every filter, and nothing otherwise |
| `JsonQuery.SelectAppendFilters` | internal/tools/json_query.go:88-97 | filtering by `fs + gs` equals filtering by `fs` and then filtering the survivors by `gs` |
| `JsonQuery.Truncate` | internal/tools/json_query.go:100-102 | the result is a prefix of the matches; a positive limit k yields min(k, m) of the m matches; a nil or non-positive limit leaves the matches untouched |
| `JsonQuery.Query` | internal/tools/json_query.go:71-107 | defined for every query whose comparisons cannot panic; `count` equals the length of `result`, and the only failures are ArrayPathNotFound and NotAnArray |
| `JsonQuery.QueryOutcome` | internal/tools/json_query.go:72-102 | ArrayPathNotFound exactly when navigation fails, NotAnArray exactly when the target is not an array (no partial result), and otherwise the truncated selection of the target's elements |
| `JsonQuery.JsonQueryHandler` | internal/tools/json_query.go:71-107 | the handler (navigation if the path is non-empty, array check, append loop, reslice) returns exactly what `Query` specifies |
| `JsonQuery.RegionContainsExample` | internal/tools/json_query_test.go:70-82 | over the four test investors, contains "san-francisco-bay-area" on `regions` returns Sequoia, Intel and a16z in order, count 3 |
| `JsonQuery.TypeEqExample` | internal/tools/json_query_test.go:84-96 | eq "vc" on `type` returns Sequoia and a16z, count 2 |
| `JsonQuery.IsNullExample` | internal/tools/json_query_test.go:98-110 | is_null on `profileUpdatedAt` returns Intel and AngelList, count 2 |
| `JsonQuery.IsNotNullExample` | internal/tools/json_query_test.go:112-124 | is_not_null on `profileUpdatedAt` returns Sequoia and a16z, count 2 |
| `JsonQuery.AndNoMatchExample` | internal/tools/json_query_test.go:126-140 | contains the bay area AND eq "vc" AND is_null returns nothing, count 0 |
| `JsonQuery.AndOneMatchExample` | internal/tools/json_query_test.go:142-156 | contains the bay area AND eq "corporate-vc" AND is_null returns Intel alone, count 1 |
| `JsonQuery.TypeNeqExample` | internal/tools/json_query_test.go:158-170 | neq "vc" on `type` returns Intel and AngelList, count 2 |
| `JsonQuery.NoFiltersAndLimitExample` | internal/tools/json_query_test.go:172-195 | no filters return all four investors in order (count 4); a limit of 2 returns Sequoia and Intel (count 2) |
| `JsonQuery.NestedPathExample` | internal/tools/json_query_test.go:208-235 | on the nested test document, ["data","investors"] with eq "vc" returns the object with id "a" (count 1), and ["data","nonexistent"] fails with ArrayPathNotFound |
| `JsonQuery.NotAnArrayExample` | internal/tools/json_query.go:80-84 | on the nested test document, ["data"] reaches an object and the query fails with NotAnArray |
| `PathUtil.Resolve` | internal/pathutil/resolver.go:12-32 | an empty path fails with InvalidPath, before the traversal check; otherwise any ".." fails with PathTraversal; otherwise a failing Abs gives InvalidPath; success happens exactly when all three checks pass, and the result is absolute |
| `PathUtil.DotDotAnywhereIsTraversal` | internal/pathutil/resolver.go:18-20 | a ".." at any position of a non-empty path is refused with PathTraversal, including inside a file name such as "a..b" |
| `PathUtil.ResolveTestTable` | internal/pathutil/resolver_test.go:18-43 | "/tmp/test.md" and "test.md" resolve to absolute paths whenever Abs succeeds on them; "../etc/passwd" and "/tmp/../etc/passwd" are refused with PathTraversal; "" is refused with InvalidPath |
| `Verifier.LineCountMatchesScanner` | internal/verifier/verifier.go:92-104 | the arithmetic count (newlines + 1, less one for a trailing newline, 0 for empty content) equals the number of lines a line scanner reads |
| `Verifier.NonEmptyHasALine` | internal/verifier/verifier.go:100-103 | non-empty content counts at least one line, even before the final clamp, so the clamp never changes the count |
| `Verifier.TrailingNewlineExample` | internal/verifier/verifier_test.go:64-72 | "line1\nline2\n" has 2 lines |
| `Verifier.BlankLinesExample` | internal/verifier/verifier_test.go:33-42 | "# Title\n\n## Section\n\nContent" has 5 lines |
| `Verifier.InMemoryFileVerifier.constructor` | internal/verifier/verifier.go:76-83 | a nil table becomes an empty table; a given table is kept |
| `Verifier.InMemoryFileVerifier.Verify` | internal/verifier/verifier.go:86-111 | FileNotFound exactly when the path is absent, and success exactly when it is present; on success the path is echoed, the size is the content's UTF-8 byte length and the line count is `LineCount`; `Files` is only read |
| `Reader.Lookup` | internal/reader/reader.go:55-61 | a stored path reads as exactly its content; an absent path gives FileNotFound |
| `Reader.InMemoryFileReader.constructor` | internal/reader/reader.go:48-52 | a fresh reader has an empty table |
| `Reader.InMemoryFileReader.Read` | internal/reader/reader.go:55-61 | reading is the lookup in `Files`, which is left unmodified |
| `Reader.ReadEmptyFile` | internal/reader/reader_test.go:37-41 | a stored empty file reads back as "" with no error |
| `Writer.InMemoryFileWriter.constructor` | internal/writer/writer.go:70-74 | a fresh writer has an empty table |
| `Writer.InMemoryFileWriter.Write` | internal/writer/writer.go:77-80 | `Files` becomes the old table with `path` mapped to `content`; the write returns the content's UTF-8 byte length and never fails |
| `Writer.WriteTwice` | internal/writer/writer.go:78 | writing the same path twice leaves only the second content |
| `Writer.WriteKeepsOtherEntries` | internal/writer/writer.go:77-80 | a writer holding a table and then written at `path` adds only `path` to the keys, maps it to the content, and keeps every other entry's content |
| `RoundTrip.WriteThenShare` | internal/writer/writer.go:77-80 | a reader handed the table of a writer just written at `path` holds the old table with `path` mapped to the content |
| `RoundTrip.ReadAfterWrite` | internal/reader/reader.go:55-61 | reading a path just written through the writer gives back the written content |
| `RoundTrip.ReadOtherAfterWrite` | internal/reader/reader.go:55-61 | reading any other path after the write gives what the table gave before the write, content or FileNotFound |
| `Utf8.ByteLen` | internal/writer/writer.go:79 | the byte length of a string lies between its number of characters and four times that number |
| `Utf8.ByteLenAppend` | internal/verifier/verifier.go:108 | the byte length of a concatenation is the sum of the byte lengths |
| `Utf8.AsciiByteLen` | internal/verifier/verifier.go:108 | an ASCII string has as many bytes as characters |
| `Utf8.AccentExample` | internal/writer/writer.go:79 | "é" is one character but two bytes |

## Left out

- JSON text parsing (`json.Unmarshal`, `json.Valid`) is a library call. The model starts from the parsed
  tree, so InvalidJSON is never produced here.
- The handler's first steps are not modelled as one function. These are path resolution, the file read
  through the injected reader, and parsing (internal/tools/json_query.go:47-69). `Resolve` and the
  in-memory reader are modelled separately.
- Output serialisation (`json.Marshal`), MCP result wrapping and logging are left out. These are
  internal/tools/json_query.go:53-57 and 109-121.
- Three OS implementations are I/O and are left out:
  - `OSFileWriter`, with its temp-file-and-rename.
  - `OSFileReader`, with its context-cancellation check.
  - `OSFileVerifier`, with its `bufio.Scanner` loop. `ScannedLines` states the line-scanner reading
    that the in-memory count is proved to agree with.
- The thin handlers (write, verify, json_read, json_write) are left out. So are the tool registry, the
  server's main, and the package-level injected collaborators. These only chain `Resolve` with an
  injected collaborator, or are process wiring.
- `JsonQuery.ValuesEqual` does not model float64 rounding. A Go int or int64 operand beyond 2^53 would
  round when converted to float64; the model compares exact values.
- `JsonQuery.ValuesEqual` leaves out the one-sided int/int64 branches: an int field against an int64
  value, and an int64 field against anything. Go compares these by dynamic type and value. They only
  arise for Go callers, never for decoded JSON.
- `JsonQuery.ValuesEqual` requires its arguments to be comparable. When both are arrays or both are
  objects, Go panics, and the model excludes that case by precondition instead of inventing a result.
  The same applies to `ApplyFilter`, `ArrayContains`, `MatchesAllFilters` and `JsonQueryHandler`.
- Dotted field paths are promised in comments only; the code does a direct key lookup, and so does the
  model.
- `JsonQuery.Select`, `JsonQuery.MatchesAll` and `JsonQuery.Keeps` are defined on every input. Where a
  comparison would panic in Go they count the filter as failing. They are only used under `QuerySafe`
  or `MatchSafe`, where no comparison panics, and there they agree with the code.
- `NewInMemoryFileVerifier` keeps the caller's map, and the tests fill the readers' exported `Files`
  maps directly. Go maps are references, so a later change through either handle is seen by both. The
  model's tables are values: it captures the contents at each call, not that sharing.
- A Go string may hold bytes that are not valid UTF-8. The model's strings are sequences of Unicode
  scalar values, so such strings, and their byte counts, cannot be represented.
- The "invalid path file not found" query test (internal/tools/json_query_test.go:196-206) fails in the
  file read, before any query logic. It is covered by `Reader.Lookup` only.
- `InvalidFilter` is declared in the domain errors but never returned.
- FileInfo's `Size` is an int64 and the written size is an int64; the model uses unbounded integers.
  A string cannot come close to 2^63 bytes.
