/**
 * The file object Ghost hands to the storage adapter (`{ name, base, ext, dir, path, … }`), which
 * `GCSFile`'s constructor completes in place.
 */
module Records {
  import opened Wrappers

  /**
   * The fields of a file object. JavaScript's empty string and missing value coincide for
   * `base` and `ext` (both falsy); `dir` and `path` tell "absent" (`None`) from "".
   * `extra` holds any other string-valued fields, which templates may name.
   */
  datatype FileState = FileState(
    name: string,
    base: string,
    ext: string,
    dir: Option<string>,
    path: Option<string>,
    extra: map<string, string>)

  /** `file[key] ?? ''`: a field of the file object by name, "" when it is absent or null. */
  function Field(st: FileState, key: string): (r: string)
    ensures key == "name" ==> r == st.name
    ensures key == "base" ==> r == st.base
    ensures key == "ext" ==> r == st.ext
    ensures key == "dir" ==> r == st.dir.GetOr("")
    ensures key == "path" ==> r == st.path.GetOr("")
    ensures key !in {"name", "base", "ext", "dir", "path"} && key in st.extra ==> r == st.extra[key]
    ensures key !in {"name", "base", "ext", "dir", "path"} && key !in st.extra ==> r == ""
  {
    if key == "name" then st.name
    else if key == "base" then st.base
    else if key == "ext" then st.ext
    else if key == "dir" then st.dir.GetOr("")
    else if key == "path" then st.path.GetOr("")
    else if key in st.extra then st.extra[key]
    else ""
  }

  /** A file object shared between Ghost and the adapter: the adapter writes its fields. */
  class FileRecord {
    var name: string
    var base: string
    var ext: string
    var dir: Option<string>
    var path: Option<string>
    var extra: map<string, string>

    constructor (st: FileState)
      ensures State() == st
    {
      name, base, ext, dir, path, extra := st.name, st.base, st.ext, st.dir, st.path, st.extra;
    }

    function State(): FileState
      reads this
    {
      FileState(name, base, ext, dir, path, extra)
    }
  }
}
