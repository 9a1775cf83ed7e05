/**
 * Path validation of the path utilities: an empty path and any path that
 * contains ".." are refused before the path is made absolute and cleaned.
 * Making a path absolute depends on the working directory and the
 * operating system, so `abs` and `clean` are parameters.
 */
module PathUtil {
  import opened Domain

  /** An absolute path starts with the separator. */
  predicate IsAbs(p: string) {
    |p| > 0 && p[0] == '/'
  }

  /** `p` contains the substring "..". */
  predicate HasDotDot(p: string) {
    exists i :: 0 <= i < |p| - 1 && p[i] == '.' && p[i + 1] == '.'
  }

  /**
   * What the operating system's Abs and Clean promise: Abs either fails
   * or gives an absolute path, and Clean keeps a path absolute.
   */
  ghost predicate AbsContract(abs: string -> Option<string>, clean: string -> string) {
    && (forall p :: abs(p).Some? ==> IsAbs(abs(p).value))
    && (forall p :: IsAbs(p) ==> IsAbs(clean(p)))
  }

  /** Resolve: validate, then make absolute and clean. */
  function Resolve(path: string, abs: string -> Option<string>, clean: string -> string): (r: Result<string>)
    requires AbsContract(abs, clean)
    ensures path == "" ==> r == Err(InvalidPath)
    ensures path != "" && HasDotDot(path) ==> r == Err(PathTraversal)
    ensures path != "" && !HasDotDot(path) && abs(path).None? ==> r == Err(InvalidPath)
    ensures r.Ok? <==> path != "" && !HasDotDot(path) && abs(path).Some?
    ensures r.Ok? ==> IsAbs(r.value)
    ensures r.Err? ==> r.error == InvalidPath || r.error == PathTraversal
  {
    if path == "" then Err(InvalidPath)
    else if HasDotDot(path) then Err(PathTraversal)
    else
      match abs(path)
      case None => Err(InvalidPath)
      case Some(absPath) => Ok(clean(absPath))
  }

  /** A ".." anywhere in the path is refused, so "a..b" is refused too. */
  lemma DotDotAnywhereIsTraversal(path: string, i: nat, abs: string -> Option<string>, clean: string -> string)
    requires AbsContract(abs, clean)
    requires i + 1 < |path| && path[i] == '.' && path[i + 1] == '.'
    ensures Resolve(path, abs, clean) == Err(PathTraversal)
  {
  }

  /**
   * The resolver's test table: two valid paths resolve to absolute paths
   * whenever Abs succeeds, two paths with ".." are traversal attempts, and
   * the empty path is invalid.
   */
  lemma ResolveTestTable(abs: string -> Option<string>, clean: string -> string)
    requires AbsContract(abs, clean)
    requires abs("/tmp/test.md").Some? && abs("test.md").Some?
    ensures var r := Resolve("/tmp/test.md", abs, clean); r.Ok? && IsAbs(r.value)
    ensures var r := Resolve("test.md", abs, clean); r.Ok? && IsAbs(r.value)
    ensures Resolve("../etc/passwd", abs, clean) == Err(PathTraversal)
    ensures Resolve("/tmp/../etc/passwd", abs, clean) == Err(PathTraversal)
    ensures Resolve("", abs, clean) == Err(InvalidPath)
  {
    DotDotAnywhereIsTraversal("../etc/passwd", 0, abs, clean);
    DotDotAnywhereIsTraversal("/tmp/../etc/passwd", 5, abs, clean);
    assert !HasDotDot("/tmp/test.md") by {
      forall i | 0 <= i < |"/tmp/test.md"| - 1 && "/tmp/test.md"[i] == '.'
        ensures "/tmp/test.md"[i + 1] != '.'
      {
        assert i == 9;
      }
    }
    assert !HasDotDot("test.md") by {
      forall i | 0 <= i < |"test.md"| - 1 && "test.md"[i] == '.'
        ensures "test.md"[i + 1] != '.'
      {
        assert i == 4;
      }
    }
  }
}
