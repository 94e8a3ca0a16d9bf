/** The collaborators the resolution layer calls but whose code is not
    part of this model: the file system (`os.Stat`, `os.Remove`,
    `os.MkdirAll`, `os.WriteFile`), `filepath.Abs`/`Join`/`Dir`, the
    quoting helpers of the `utils` package and the `qdyaml` discovery
    and parsing functions. Each is an uninterpreted function, collected
    in one `Env` value that the operations take as a parameter. */
module Host {
  import opened Wrappers

  /** The two keys of a parsed qodana.yaml that the consistency check reads. */
  datatype QodanaYaml = QodanaYaml(ide: string, linter: string)

  /** What `os.Stat` reports about a path, as `isFileExists` reads it:
      the file is there, `os.IsNotExist` holds, or any other error. */
  datatype Probe = Present | Absent | StatError

  datatype Env = Env(
    stat: string -> Probe,
    abs: string -> Option<string>,             // filepath.Abs; None is its error
    join: (string, string) -> string,          // filepath.Join of two elements
    dir: string -> string,                     // filepath.Dir
    quoteForWindows: string -> string,         // utils.QuoteForWindows
    quoteIfSpace: string -> string,            // utils.QuoteIfSpace
    loadQodanaYaml: string -> QodanaYaml,      // qdyaml.LoadQodanaYamlByFullPath
    findDefaultLocalQodanaYaml: string -> string,
    findDefaultLocalNotEffectiveQodanaYaml: string -> string,
    localNotEffectivePathWithProject: (string, string) -> string,
    removeSucceeds: string -> bool,            // os.Remove returned nil
    mkdirAllSucceeds: string -> bool,          // os.MkdirAll returned nil
    writeSucceeds: string -> bool              // os.WriteFile returned nil
  )

  /** The exit status and error `utils.LaunchAndLog` reports for a run of
      the resolver; its captured output is not modelled. */
  datatype LaunchResult = LaunchResult(res: int, failed: bool)

  /** The guard `res > 0 || err != nil` after which the caller calls
      `os.Exit(res)`. A launch error with a status of zero or below
      therefore exits with that status. */
  predicate LaunchStops(l: LaunchResult) {
    l.res > 0 || l.failed
  }

  /** `filepath.Join` returns "" only when every element is empty; the
      model relies on the weaker half: joining a non-empty name never
      gives the empty path. */
  ghost predicate JoinKeepsNames(env: Env) {
    forall base: string, name: string :: name != "" ==> env.join(base, name) != ""
  }

  /** `isFileExists`: true on a successful stat, false when the file does
      not exist, and `log.Fatalf` on any other stat error. */
  function IsFileExists(env: Env, path: string): (r: Outcome<bool>)
    ensures r.Ok? <==> env.stat(path) != StatError
    ensures r.Ok? ==> (r.value <==> env.stat(path) == Present)
    ensures !r.Ok? ==> r == Fatal(StatFailed(path))
  {
    match env.stat(path)
    case Present => Ok(true)
    case Absent => Ok(false)
    case StatError => Fatal(StatFailed(path))
  }

  /** `filepath.Abs` followed by `log.Fatalf` when it fails. */
  function Abs(env: Env, path: string): (r: Outcome<string>)
    ensures r.Ok? <==> env.abs(path).Some?
    ensures r.Ok? ==> r.value == env.abs(path).value
    ensures !r.Ok? ==> r == Fatal(AbsFailed(path))
  {
    match env.abs(path)
    case Some(p) => Ok(p)
    case None => Fatal(AbsFailed(path))
  }
}
