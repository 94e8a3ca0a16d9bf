/** Staging of `config-loader-cli.jar` and the argument vector handed to
    it. `createConfigLoaderCliJar` and `configurationLoaderCliArgs` are
    the same code in the `effectiveconfig` and `effectiveyaml` packages
    (only the wording of two fatal messages differs), so both packages
    of the model use the definitions here. */
module ConfigLoader {
  import opened Wrappers
  import opened Host

  const ToolsDirName := "tools"
  const ConfigLoaderCliJarName := "config-loader-cli.jar"

  const JarFlag := "-jar"
  const OutDirFlag := "--effective-config-out-dir"
  const LocalYamlFlag := "--local-qodana-yaml"
  const GlobalConfigsFileFlag := "--global-configs-file"
  const GlobalConfigIdFlag := "--global-config-id"

  /** Where the jar is written: `systemDir/tools/config-loader-cli.jar`. */
  function JarPath(env: Env, systemDir: string): string {
    env.join(env.join(systemDir, ToolsDirName), ConfigLoaderCliJarName)
  }

  /** `createConfigLoaderCliJar`: remove a stale jar, create its directory,
      write the embedded bytes; each failure is fatal, in that order. */
  function CreateConfigLoaderCliJar(env: Env, systemDir: string): (r: Outcome<string>)
    ensures r.Ok? ==> r.value == JarPath(env, systemDir)
    ensures r.Ok? <==>
      && env.stat(JarPath(env, systemDir)) != StatError
      && (env.stat(JarPath(env, systemDir)) == Present ==> env.removeSucceeds(JarPath(env, systemDir)))
      && env.mkdirAllSucceeds(env.dir(JarPath(env, systemDir)))
      && env.writeSucceeds(JarPath(env, systemDir))
    ensures !r.Ok? ==> r.Fatal?
    // the failures in the order they are checked
    ensures var path := JarPath(env, systemDir);
      && (env.stat(path) == StatError ==> r == Fatal(StatFailed(path)))
      && (env.stat(path) == Present && !env.removeSucceeds(path) ==> r == Fatal(RemoveFailed(path)))
      && ((&& env.stat(path) != StatError
           && (env.stat(path) == Present ==> env.removeSucceeds(path))
           && !env.mkdirAllSucceeds(env.dir(path))) ==> r == Fatal(MkdirFailed(env.dir(path))))
      && ((&& env.stat(path) != StatError
           && (env.stat(path) == Present ==> env.removeSucceeds(path))
           && env.mkdirAllSucceeds(env.dir(path))
           && !env.writeSucceeds(path)) ==> r == Fatal(WriteFailed(path)))
  {
    var path := JarPath(env, systemDir);
    var stale :- IsFileExists(env, path);
    if stale && !env.removeSucceeds(path) then Fatal(RemoveFailed(path))
    else if !env.mkdirAllSucceeds(env.dir(path)) then Fatal(MkdirFailed(env.dir(path)))
    else if !env.writeSucceeds(path) then Fatal(WriteFailed(path))
    else Ok(path)
  }

  /** The arguments of one resolver run, already quoted: the runtime, the
      jar, the output directory and the three optional layer sources. */
  datatype LoaderArgs = LoaderArgs(
    runtime: string,
    jar: string,
    outDir: string,
    localYaml: Option<string>,
    globalConfigsFile: Option<string>,
    globalConfigId: Option<string>)

  function FlagPair(flag: string, value: Option<string>): seq<string> {
    match value
    case Some(v) => [flag, v]
    case None => []
  }

  function PairCount(value: Option<string>): nat {
    if value.Some? then 1 else 0
  }

  /** The vector layout: a fixed five-element prefix, then the optional
      flag pairs in the order local yaml, global file, global id. */
  function Render(a: LoaderArgs): seq<string> {
    [a.runtime, JarFlag, a.jar, OutDirFlag, a.outDir]
    + FlagPair(LocalYamlFlag, a.localYaml)
    + FlagPair(GlobalConfigsFileFlag, a.globalConfigsFile)
    + FlagPair(GlobalConfigIdFlag, a.globalConfigId)
  }

  /** Reads an optional `flag value` pair off the front of `rest`. */
  function TakePair(flag: string, rest: seq<string>): (Option<string>, seq<string>) {
    if |rest| >= 2 && rest[0] == flag then (Some(rest[1]), rest[2..]) else (None, rest)
  }

  /** The inverse of `Render`: recovers the arguments from a vector, or
      None when the vector does not have the layout `Render` produces. */
  function Parse(v: seq<string>): Option<LoaderArgs> {
    if |v| < 5 || v[1] != JarFlag || v[3] != OutDirFlag then None
    else
      var (local, r1) := TakePair(LocalYamlFlag, v[5..]);
      var (file, r2) := TakePair(GlobalConfigsFileFlag, r1);
      var (id, r3) := TakePair(GlobalConfigIdFlag, r2);
      if r3 == [] then Some(LoaderArgs(v[0], v[2], v[4], local, file, id)) else None
  }

  lemma TakePairOfRendered(flag: string, value: Option<string>, tail: seq<string>)
    requires tail == [] || (tail[0] != flag && |tail| >= 2)
    ensures TakePair(flag, FlagPair(flag, value) + tail) == (value, tail)
  {
    if value.Some? {
      assert (FlagPair(flag, value) + tail)[2..] == tail;
    } else {
      assert FlagPair(flag, value) + tail == tail;
    }
  }

  /** Every rendered vector parses back to the arguments it came from. */
  lemma ParseRender(a: LoaderArgs)
    ensures Parse(Render(a)) == Some(a)
  {
    var idTail := FlagPair(GlobalConfigIdFlag, a.globalConfigId);
    var fileTail := FlagPair(GlobalConfigsFileFlag, a.globalConfigsFile) + idTail;
    var localTail := FlagPair(LocalYamlFlag, a.localYaml) + fileTail;
    var v := Render(a);
    assert v == [a.runtime, JarFlag, a.jar, OutDirFlag, a.outDir] + localTail;
    assert v[5..] == localTail;
    TakePairOfRendered(LocalYamlFlag, a.localYaml, fileTail);
    TakePairOfRendered(GlobalConfigsFileFlag, a.globalConfigsFile, idTail);
    TakePairOfRendered(GlobalConfigIdFlag, a.globalConfigId, []);
    assert idTail + [] == idTail;
  }

  /** Reading an optional pair off `rest` splits it into that pair and
      what follows. */
  lemma TakePairSplits(flag: string, rest: seq<string>)
    ensures rest == FlagPair(flag, TakePair(flag, rest).0) + TakePair(flag, rest).1
  {
    if |rest| >= 2 && rest[0] == flag {
      assert rest == [rest[0], rest[1]] + rest[2..];
    }
  }

  /** What a successful `Parse` reads off the vector: the fixed prefix
      and the optional pairs, which make up the whole rest. */
  lemma ParsedParts(v: seq<string>)
    requires Parse(v).Some?
    ensures |v| >= 5 && v[1] == JarFlag && v[3] == OutDirFlag
    ensures var a := Parse(v).value;
      && a.runtime == v[0] && a.jar == v[2] && a.outDir == v[4]
      && v[5..] == FlagPair(LocalYamlFlag, a.localYaml) + FlagPair(GlobalConfigsFileFlag, a.globalConfigsFile)
                   + FlagPair(GlobalConfigIdFlag, a.globalConfigId)
  {
    var (local, r1) := TakePair(LocalYamlFlag, v[5..]);
    var (file, r2) := TakePair(GlobalConfigsFileFlag, r1);
    var (id, r3) := TakePair(GlobalConfigIdFlag, r2);
    TakePairSplits(LocalYamlFlag, v[5..]);
    TakePairSplits(GlobalConfigsFileFlag, r1);
    TakePairSplits(GlobalConfigIdFlag, r2);
    assert r3 == [];
    assert Parse(v).value == LoaderArgs(v[0], v[2], v[4], local, file, id);
  }

  /** And every vector that parses is the rendering of what it parses to,
      so `Parse` and `Render` are mutually inverse. */
  lemma RenderParse(v: seq<string>)
    requires Parse(v).Some?
    ensures Render(Parse(v).value) == v
  {
    ParsedParts(v);
    assert v == [v[0], v[1], v[2], v[3], v[4]] + v[5..];
  }

  /** Two different argument records never give the same vector. */
  lemma RenderInjective(a: LoaderArgs, b: LoaderArgs)
    requires Render(a) == Render(b)
    ensures a == b
  {
    ParseRender(a);
    ParseRender(b);
  }

  /** The vector has five fixed elements plus two per optional flag. */
  lemma RenderLength(a: LoaderArgs)
    ensures |Render(a)| == 5 + 2 * (PairCount(a.localYaml) + PairCount(a.globalConfigsFile) + PairCount(a.globalConfigId))
  {
  }

  /** `filepath.Abs` of `path` when `wanted`, fatal when that fails. */
  function AbsIf(env: Env, wanted: bool, path: string): Outcome<Option<string>> {
    if !wanted then Ok(None)
    else
      var p :- Abs(env, path);
      Ok(Some(p))
  }

  function QuoteOption(env: Env, p: Option<string>): Option<string> {
    match p
    case Some(s) => Some(env.quoteForWindows(s))
    case None => None
  }

  /** Everything `configurationLoaderCliArgs` needs to succeed: both
      mandatory paths, an absolute output directory, a stat of the local
      yaml without error, and the absolute forms it asks for. */
  predicate CliArgsSucceed(env: Env, jrePath: string, jarPath: string, localYaml: string,
                           globalConfigsFile: string, effectiveConfigDir: string)
  {
    && jrePath != ""
    && jarPath != ""
    && env.abs(effectiveConfigDir).Some?
    && env.stat(localYaml) != StatError
    && (env.stat(localYaml) == Present ==> env.abs(localYaml).Some?)
    && (globalConfigsFile != "" ==> env.abs(globalConfigsFile).Some?)
  }

  /** What a successful run of `configurationLoaderCliArgs` encodes. */
  function ExpectedArgs(env: Env, jrePath: string, jarPath: string, localYaml: string,
                        globalConfigsFile: string, globalConfigId: string, effectiveConfigDir: string): LoaderArgs
    requires CliArgsSucceed(env, jrePath, jarPath, localYaml, globalConfigsFile, effectiveConfigDir)
  {
    LoaderArgs(
      env.quoteIfSpace(env.quoteForWindows(jrePath)),
      env.quoteForWindows(jarPath),
      env.quoteForWindows(env.abs(effectiveConfigDir).value),
      if env.stat(localYaml) == Present then Some(env.quoteForWindows(env.abs(localYaml).value)) else None,
      if globalConfigsFile != "" then Some(env.quoteForWindows(env.abs(globalConfigsFile).value)) else None,
      if globalConfigId != "" then Some(env.quoteForWindows(globalConfigId)) else None)
  }

  /** `configurationLoaderCliArgs`. */
  function ConfigurationLoaderCliArgs(env: Env, jrePath: string, jarPath: string, localYaml: string,
                                      globalConfigsFile: string, globalConfigId: string,
                                      effectiveConfigDir: string): (r: Outcome<seq<string>>)
    // the mandatory inputs are checked first, the runtime before the jar
    ensures jrePath == "" ==> r == Fatal(JreNotFound)
    ensures jrePath != "" && jarPath == "" ==> r == Fatal(ConfigLoaderJarNotFound)
    // then the output directory, the local yaml and the global file, in that order
    ensures jrePath != "" && jarPath != "" && env.abs(effectiveConfigDir).None? ==>
              r == Fatal(AbsFailed(effectiveConfigDir))
    ensures jrePath != "" && jarPath != "" && env.abs(effectiveConfigDir).Some? ==> (
              && (env.stat(localYaml) == StatError ==> r == Fatal(StatFailed(localYaml)))
              && (env.stat(localYaml) == Present && env.abs(localYaml).None? ==> r == Fatal(AbsFailed(localYaml)))
              && ((&& env.stat(localYaml) != StatError
                   && (env.stat(localYaml) == Present ==> env.abs(localYaml).Some?)
                   && globalConfigsFile != ""
                   && env.abs(globalConfigsFile).None?) ==> r == Fatal(AbsFailed(globalConfigsFile))))
    ensures !r.Ok? ==> r.Fatal?
    ensures r.Ok? <==> CliArgsSucceed(env, jrePath, jarPath, localYaml, globalConfigsFile, effectiveConfigDir)
    // on success the vector has the fixed prefix ...
    ensures r.Ok? ==> (
              && |r.value| >= 5
              && r.value[..5] ==
                   [env.quoteIfSpace(env.quoteForWindows(jrePath)), JarFlag, env.quoteForWindows(jarPath),
                    OutDirFlag, env.quoteForWindows(env.abs(effectiveConfigDir).value)])
    // ... and reads back as exactly the expected arguments: the local flag
    // iff the file exists, the global flags iff their inputs are non-empty
    ensures r.Ok? ==>
              Parse(r.value) == Some(ExpectedArgs(env, jrePath, jarPath, localYaml, globalConfigsFile, globalConfigId, effectiveConfigDir))
    ensures r.Ok? ==> (
              |r.value| == 5 + 2 * (
                (if env.stat(localYaml) == Present then 1 else 0)
                + (if globalConfigsFile != "" then 1 else 0)
                + (if globalConfigId != "" then 1 else 0)))
  {
    if jrePath == "" then Fatal(JreNotFound)
    else if jarPath == "" then Fatal(ConfigLoaderJarNotFound)
    else
      var dirAbs :- Abs(env, effectiveConfigDir);
      var localExists :- IsFileExists(env, localYaml);
      var localAbs :- AbsIf(env, localExists, localYaml);
      var fileAbs :- AbsIf(env, globalConfigsFile != "", globalConfigsFile);
      var a := LoaderArgs(
        env.quoteIfSpace(env.quoteForWindows(jrePath)),
        env.quoteForWindows(jarPath),
        env.quoteForWindows(dirAbs),
        QuoteOption(env, localAbs),
        QuoteOption(env, fileAbs),
        if globalConfigId != "" then Some(env.quoteForWindows(globalConfigId)) else None);
      ParseRender(a);
      RenderLength(a);
      Ok(Render(a))
  }
}
