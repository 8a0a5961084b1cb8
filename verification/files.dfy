/** The file system as the generators see it. Reading and parsing files is
    outside the model: a run is given the parsed JSON files by path and the
    set of other paths that exist. */
module Files {
  import opened Wrappers
  import opened Values

  /** What the generator sees of the file system: the JSON files it can parse
      (by path, already parsed) and the other paths that exist. */
  datatype FileSystem = FileSystem(configs: map<string, Value>, files: set<string>)

  /** `Path(p).exists()`, with paths compared verbatim. */
  predicate Exists(fs: FileSystem, path: string) {
    path in fs.configs || path in fs.files
  }

  /** `json.load` on an existing file: its parsed content, or the decoder's
      `ValueError` when the file is not JSON. */
  function ReadJson(fs: FileSystem, path: string): (r: Result<Value>)
    ensures r.Ok? <==> path in fs.configs
    ensures r.Ok? ==> r.value == fs.configs[path]
  {
    if path in fs.configs then Ok(fs.configs[path]) else Err(ValueError("Expecting value"))
  }

  /** `Path(v)` for a configuration path: only text names a file. */
  function PathText(v: Value): (r: Result<string>)
    ensures r.Ok? <==> v.Str?
  {
    if v.Str? then Ok(v.s) else Err(TypeError("expected str, bytes or os.PathLike object"))
  }
}
