/**
 * The operations of the current `GCSAdapter` (dist/cjs/lib/adapter.cjs) that Ghost calls: object
 * names for paths and URLs, and how storage failures surface. The storage calls themselves are
 * parameters: each takes the object name and returns what GCS answered.
 */
module GcsAdapter {
  import opened Wrappers
  import opened Constants
  import opened Sanitizer
  import opened Records
  import opened GcsOptions
  import opened GcsFile

  /** An error of the GCS client: an HTTP status when it has one, and a message. */
  datatype StorageError = StorageError(code: Option<int>, message: string)

  /** How an adapter call fails: a `GCSAdapterError` with a message, or a storage error left unwrapped. */
  datatype Failure = AdapterError(message: string) | Passed(error: StorageError)

  /** The error `next` receives from the serve handler. */
  datatype GhostError =
    | BadRequest(cause: StorageError)
    | Unauthorized(cause: StorageError)
    | NoPermission(cause: StorageError)
    | NotFound(message: string, code: string, property: string)
    | InternalServer

  /** Whether a storage error carries the HTTP status `status`. */
  predicate IsStatus(e: StorageError, status: int) {
    e.code == Some(status)
  }

  // ---------------------------------------------------------------- object names

  /** The object name of `fromPath(path, this, dir).relative()`; an empty path is an error. */
  function PathKey(a: Adapter, path: string, dirArg: Option<string>, targetDir: string): (r: Result<string, string>)
    ensures r.Ok? <==> path != ""
    ensures r.Err? ==> r.error == "Path is required"
    ensures r.Ok? ==> All(r.value, TameChar) && NoBackslash(r.value)
  {
    var st :- FromPathState(path, a, dirArg, targetDir);
    Ok(RelativeKey(a.opts, st.dir.value, st.base))
  }

  /** `urlToPath(url)`: the object name of a URL `serve()` returned, or of a serve path. */
  function UrlKey(a: Adapter, u: string, cwd: string, targetDir: string): (r: Result<string, string>)
    ensures r.Ok? <==> u != ""
    ensures r.Err? ==> r.error == "URL is required"
    ensures r.Ok? ==> All(r.value, TameChar) && NoBackslash(r.value)
  {
    var st :- FromUrlState(u, a, cwd, targetDir);
    Ok(RelativeKey(a.opts, st.dir.value, st.base))
  }

  /** `urlToPath(url)`: builds the file with `fromURL` and asks it for `relative()`. */
  method UrlToPath(a: Adapter, u: string, cwd: string, targetDir: string) returns (r: Result<string, string>)
    ensures r == UrlKey(a, u, cwd, targetDir)
  {
    var file := FromURL(u, a, cwd, targetDir);
    if file.Err? {
      return Err(file.error);
    }
    r := Ok(file.value.Relative());
  }

  // ---------------------------------------------------------------- storage calls

  /** How `delete` reports GCS's answer: success and "not found" both succeed, anything else is wrapped. */
  function DeleteOutcome(e: Option<StorageError>): (r: Result<(), Failure>)
    ensures r.Ok? <==> e.None? || IsStatus(e.value, 404)
    ensures r.Err? ==> r.error == AdapterError(e.value.message)
  {
    if e.None? || e.value.code == Some(404) then Ok(()) else Err(AdapterError(e.value.message))
  }

  /**
   * `delete(path, dir)`: the path is required (thrown before the `try`); `remove` deletes the
   * named object and returns GCS's error, if any.
   */
  method Delete(a: Adapter, path: string, dirArg: Option<string>, targetDir: string,
                remove: string -> Option<StorageError>) returns (r: Result<(), Failure>)
    ensures path == "" ==> r == Err(AdapterError("Path is required"))
    ensures path != "" ==> r == DeleteOutcome(remove(PathKey(a, path, dirArg, targetDir).value))
  {
    var file := FromPath(path, a, dirArg, targetDir);
    if file.Err? {
      return Err(AdapterError(file.error));
    }
    var err := remove(file.value.Relative());
    if err.Some? && err.value.code == Some(404) {
      return Ok(());
    }
    if err.Some? {
      return Err(AdapterError(err.value.message));
    }
    r := Ok(());
  }

  /**
   * `read({ path })`: the contents of the named object. The `try` there only guards the call that
   * returns the promise, so a failed download reaches Ghost unwrapped.
   */
  method Read(a: Adapter, path: string, targetDir: string,
              download: string -> Result<seq<bv8>, StorageError>) returns (r: Result<seq<bv8>, Failure>)
    ensures path == "" ==> r == Err(AdapterError("Path is required"))
    ensures path != "" ==> match download(PathKey(a, path, None, targetDir).value)
                           case Ok(bytes) => r == Ok(bytes)
                           case Err(e) => r == Err(Passed(e))
  {
    var file := FromPath(path, a, None, targetDir);
    if file.Err? {
      return Err(AdapterError(file.error));
    }
    var got := download(file.value.Relative());
    if got.Err? {
      return Err(Passed(got.error));
    }
    r := Ok(got.value);
  }

  /** `exists(path, dir)`: whether the named object exists; a failed lookup is passed on. */
  method Exists(a: Adapter, path: string, dirArg: Option<string>, targetDir: string,
                lookup: string -> Result<bool, StorageError>) returns (r: Result<bool, Failure>)
    ensures path == "" ==> r == Err(AdapterError("Path is required"))
    ensures path != "" ==> match lookup(PathKey(a, path, dirArg, targetDir).value)
                           case Ok(b) => r == Ok(b)
                           case Err(e) => r == Err(Passed(e))
  {
    var file := FromPath(path, a, dirArg, targetDir);
    if file.Err? {
      return Err(AdapterError(file.error));
    }
    var got := lookup(file.value.Relative());
    if got.Err? {
      return Err(Passed(got.error));
    }
    r := Ok(got.value);
  }

  /**
   * `serve()` after a successful write. It is returned from the `try` without `await`, so a
   * failed signing reaches Ghost unwrapped.
   */
  function Served(a: Adapter, dir: string, name: string, sign: string -> Result<string, StorageError>): (r: Result<string, Failure>)
    ensures a.opts.signed ==> match sign(RelativeKey(a.opts, dir, name))
                              case Ok(url) => r == Ok(url)
                              case Err(e) => r == Err(Passed(e))
    ensures !a.opts.signed ==> r == Ok(ServeUrl(a, dir, name, ""))
  {
    if a.opts.signed then
      match sign(RelativeKey(a.opts, dir, name))
      case Ok(url) => Ok(url)
      case Err(e) => Err(Passed(e))
    else Ok(ServeUrl(a, dir, name, ""))
  }

  /**
   * `saveRaw(buffer, path)`: writes under the path's object name (no computed name) and returns
   * the serve URL; a failed write is wrapped, a failed signing is not.
   */
  method SaveRaw(a: Adapter, path: string, targetDir: string, write: string -> Option<StorageError>,
                 sign: string -> Result<string, StorageError>) returns (r: Result<string, Failure>)
    ensures path == "" ==> r == Err(AdapterError("Path is required"))
    ensures path != "" ==> var st := FromPathState(path, a, None, targetDir).value;
                           var err := write(RelativeKey(a.opts, st.dir.value, st.base));
                           r == if err.Some? then Err(AdapterError(err.value.message)) else Served(a, st.dir.value, st.base, sign)
  {
    var file := FromPath(path, a, None, targetDir);
    if file.Err? {
      return Err(AdapterError(file.error));
    }
    var f := file.value;
    var err := write(f.Relative());
    if err.Some? {
      return Err(AdapterError(err.value.message));
    }
    if a.opts.signed {
      var signed := sign(f.Relative());
      if signed.Err? {
        return Err(Passed(signed.error));
      }
      return Ok(signed.value);
    }
    r := Ok(f.Serve(""));
  }

  /**
   * `save(obj, dir)`: completes `obj` in place, computes its name, uploads under the resulting
   * object name and returns the serve URL; a failed upload is wrapped, a failed signing is not. `digest`,
   * `mixedDigest`, `randomHex` and `uniquePath` are as for `getComputedName`.
   */
  method Save(a: Adapter, obj: FileRecord, dirArg: Option<string>, targetDir: string,
              digest: string, mixedDigest: string, randomHex: nat -> string,
              uniquePath: (FileState, Option<string>) -> string,
              upload: string -> Option<StorageError>, sign: string -> Result<string, StorageError>)
    returns (r: Result<string, Failure>)
    modifies obj
    ensures obj.State() == Completed(old(obj.State()), a, dirArg, false, targetDir)
    ensures var st := obj.State();
            var name := Chosen(Some(ComputedName(st, a.opts, digest, mixedDigest, randomHex, uniquePath)), st.base);
            var err := upload(RelativeKey(a.opts, st.dir.value, name));
            r == if err.Some? then Err(AdapterError(err.value.message)) else Served(a, st.dir.value, name, sign)
  {
    var f := FromFile(obj, a, dirArg, targetDir);
    var computed := f.GetComputedName(digest, mixedDigest, randomHex, uniquePath);
    var err := upload(f.Relative());
    if err.Some? {
      return Err(AdapterError(err.value.message));
    }
    if a.opts.signed {
      var signed := sign(f.Relative());
      if signed.Err? {
        return Err(Passed(signed.error));
      }
      return Ok(signed.value);
    }
    r := Ok(f.Serve(""));
  }

  // ---------------------------------------------------------------- the serve handler

  /** The `switch (err.code)` of the serve handler; `key` is the file's `relative()`. */
  function ServeError(e: StorageError, key: string): (r: GhostError)
    ensures IsStatus(e, 400) <==> r == BadRequest(e)
    ensures IsStatus(e, 401) <==> r == Unauthorized(e)
    ensures IsStatus(e, 403) <==> r == NoPermission(e)
    ensures IsStatus(e, 404) <==> r.NotFound?
    ensures r.NotFound? ==> r == NotFound(e.message, "STATIC_FILE_NOT_FOUND", key)
    ensures r.InternalServer? <==> !(IsStatus(e, 400) || IsStatus(e, 401) || IsStatus(e, 403) || IsStatus(e, 404))
  {
    if e.code == Some(400) then BadRequest(e)
    else if e.code == Some(401) then Unauthorized(e)
    else if e.code == Some(403) then NoPermission(e)
    else if e.code == Some(404) then NotFound(e.message, "STATIC_FILE_NOT_FOUND", key)
    else InternalServer
  }

  /**
   * What the serve middleware passes to `next` for a request path, with `stream` piping the
   * named object to the response: nothing on success. A missing path fails inside the `try`
   * with the adapter's own error, which has no HTTP status.
   */
  function ServeFailure(a: Adapter, reqPath: string, targetDir: string, stream: string -> Option<StorageError>): (r: Option<GhostError>)
    ensures reqPath == "" ==> r == Some(InternalServer)
    ensures reqPath != "" ==> (r.None? <==> stream(PathKey(a, reqPath, None, targetDir).value).None?)
    ensures reqPath != "" && r.Some? && r.value.NotFound? ==> r.value.property == PathKey(a, reqPath, None, targetDir).value
    ensures reqPath != "" ==> var key := PathKey(a, reqPath, None, targetDir).value;
            stream(key).Some? ==> r == Some(ServeError(stream(key).value, key))
  {
    match PathKey(a, reqPath, None, targetDir)
    case Err(_) => Some(InternalServer)
    case Ok(key) =>
      match stream(key)
      case None => None
      case Some(e) => Some(ServeError(e, key))
  }
}
