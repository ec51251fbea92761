/**
 * The validation result, its issues and their paths, and the JSON Schema
 * dialects a schema can be emitted for.
 */
module Types {
  import opened Wrappers

  /** One step of a path into a JSON value: an object key or an array index. */
  datatype PathSegment = Key(key: string) | Index(index: nat)

  type Path = seq<PathSegment>

  /** A validation issue: a message and, optionally, where in the value it was found. */
  datatype Issue = Issue(message: string, path: Option<Path>)

  /** The outcome of validating a value: the output value, or the issues found. */
  datatype ValidationResult<T> = Success(value: T) | Failure(issues: seq<Issue>)

  /** The JSON Schema dialect a schema is generated for. */
  datatype Target = Draft202012 | Draft07 | OpenApi30

  /** The `$schema` URI of a dialect; OpenAPI 3.0 has none. */
  function SchemaUri(t: Target): (uri: string)
    ensures uri == "" <==> t == OpenApi30
  {
    match t
    case Draft202012 => "https://json-schema.org/draft/2020-12/schema"
    case Draft07 => "http://json-schema.org/draft-07/schema#"
    case OpenApi30 => ""
  }

  /** `ok`: the output value of a success. */
  function OkValue<T>(r: ValidationResult<T>): Option<T>
  {
    match r
    case Success(v) => Some(v)
    case Failure(_) => None
  }

  /** `issues`: the issues of a failure, none for a success. */
  function IssuesOf<T>(r: ValidationResult<T>): seq<Issue>
  {
    match r
    case Success(_) => []
    case Failure(found) => found
  }

  /** `failure`: a failed result carrying one issue without a path. */
  function FailureOf<T>(message: string): (r: ValidationResult<T>)
    ensures OkValue(r) == None
    ensures IssuesOf(r) == [Issue(message, None)]
  {
    Failure([Issue(message, None)])
  }

  /** `failure_at`: a failed result carrying one issue at `path`. */
  function FailureAt<T>(message: string, path: Path): (r: ValidationResult<T>)
    ensures OkValue(r) == None
    ensures IssuesOf(r) == [Issue(message, Some(path))]
  {
    Failure([Issue(message, Some(path))])
  }

  /** `map`: transforms the value of a success; a failure keeps its issues. */
  function Map<T, U>(r: ValidationResult<T>, f: T -> U): (r': ValidationResult<U>)
    ensures r'.Success? <==> r.Success?
    ensures OkValue(r') == if r.Success? then Some(f(r.value)) else None
    ensures IssuesOf(r') == IssuesOf(r)
  {
    match r
    case Success(v) => Success(f(v))
    case Failure(found) => Failure(found)
  }

  /** The path of `issue` once `segment` is put in front of it (a missing path becomes `[segment]`). */
  function PrefixedPath(issue: Issue, segment: PathSegment): Path
  {
    match issue.path
    case None => [segment]
    case Some(p) => [segment] + p
  }

  /**
   * `with_path_prefix`: every issue of a failure keeps its message and gets
   * `segment` in front of its path; a success is unchanged.
   */
  function WithPathPrefix<T>(r: ValidationResult<T>, segment: PathSegment): (r': ValidationResult<T>)
    ensures r.Success? ==> r' == r
    ensures r'.Success? <==> r.Success?
    ensures |IssuesOf(r')| == |IssuesOf(r)|
    ensures forall i :: 0 <= i < |IssuesOf(r)| ==>
      IssuesOf(r')[i] == Issue(IssuesOf(r)[i].message, Some(PrefixedPath(IssuesOf(r)[i], segment)))
  {
    match r
    case Success(v) => Success(v)
    case Failure(found) =>
      Failure(seq(|found|, i requires 0 <= i < |found| => Issue(found[i].message, Some(PrefixedPath(found[i], segment)))))
  }

  /**
   * Prefixing twice nests: an issue reported under `inner` and then `outer`
   * ends up at `[outer, inner] + p` (or `[outer, inner]` when it had no path).
   */
  lemma WithPathPrefixNests<T>(r: ValidationResult<T>, inner: PathSegment, outer: PathSegment)
    ensures var r' := WithPathPrefix(WithPathPrefix(r, inner), outer);
      |IssuesOf(r')| == |IssuesOf(r)| &&
      forall i :: 0 <= i < |IssuesOf(r)| ==>
        IssuesOf(r')[i].path == Some([outer, inner] + (if IssuesOf(r)[i].path.Some? then IssuesOf(r)[i].path.value else []))
  {
    var once := WithPathPrefix(r, inner);
    forall i | 0 <= i < |IssuesOf(r)|
      ensures IssuesOf(WithPathPrefix(once, outer))[i].path
        == Some([outer, inner] + (if IssuesOf(r)[i].path.Some? then IssuesOf(r)[i].path.value else []))
    {
      var p := if IssuesOf(r)[i].path.Some? then IssuesOf(r)[i].path.value else [];
      assert PrefixedPath(IssuesOf(r)[i], inner) == [inner] + p;
      assert PrefixedPath(IssuesOf(once)[i], outer) == [outer] + ([inner] + p);
      assert [outer] + ([inner] + p) == [outer, inner] + p;
    }
  }
}
