/** The `effectiveconfig` package: resolution of the effective
    configuration into a `Files` record of paths. The local yaml path is
    replaced by the discovered default only when the caller passes "",
    and the effective yaml is parsed again inside the check. */
module EffectiveConfig {
  import opened Wrappers
  import opened Host
  import opened ConfigLoader
  import opened OutputSet
  import opened Consistency

  /** Effective configuration files; every path is "" when its file is absent. */
  datatype Files = Files(
    configDir: string,
    effectiveQodanaYamlPath: string,
    localQodanaYamlPath: string,
    qodanaConfigJsonPath: string)

  function OutputsOf(f: Files): Outputs {
    Outputs(f.effectiveQodanaYamlPath, f.localQodanaYamlPath, f.qodanaConfigJsonPath)
  }

  /** `getEffectiveQodanaYamlData`: probe the three files under `dir`
      and refuse an incoherent set. */
  function GetEffectiveQodanaYamlData(env: Env, dir: string): (r: Outcome<Files>)
    ensures r.Ok? <==> ProbesClean(env, dir) && OutputSet.Coherent(ExpectedOutputs(env, dir))
    ensures r.Ok? ==> r.value.configDir == dir
    ensures r.Ok? ==> OutputsOf(r.value) == ExpectedOutputs(env, dir)
    ensures r.Ok? ==> OutputSet.Coherent(OutputsOf(r.value))
    ensures !r.Ok? ==> r.Fatal? && r.reason == Classify(env, dir).reason
  {
    var o :- Classify(env, dir);
    Ok(Files(dir, o.effective, o.local, o.configJson))
  }

  /** `verifyEffectiveQodanaYamlIdeAndLinterMatchLocal` of this package:
      the effective yaml is loaded from its path here. */
  function Verify(env: Env, files: Files, localQodanaYamlPathFromRoot: string): (v: Verdict)
    ensures var effective := env.loadQodanaYaml(files.effectiveQodanaYamlPath);
      && (v.mismatch.None? <==>
            || Unconstrained(effective)
            || files.localQodanaYamlPath == ""
            || effective == env.loadQodanaYaml(files.localQodanaYamlPath))
      && (v.mismatch == Some(Ide) <==>
            && !Unconstrained(effective) && files.localQodanaYamlPath != ""
            && effective.ide != env.loadQodanaYaml(files.localQodanaYamlPath).ide)
      && (v.mismatch == Some(Linter) <==>
            && !Unconstrained(effective) && files.localQodanaYamlPath != ""
            && effective.ide == env.loadQodanaYaml(files.localQodanaYamlPath).ide
            && effective.linter != env.loadQodanaYaml(files.localQodanaYamlPath).linter)
    ensures v.mismatch.None? ==> v.messages == []
    ensures v.mismatch.Some? ==> (
              && |v.messages| == 2
              && v.messages[0] == Mismatched(Key(v.mismatch.value), Get(env.loadQodanaYaml(files.effectiveQodanaYamlPath), v.mismatch.value),
                                             localQodanaYamlPathFromRoot)
              // the hint always asks for an `ide:` entry
              && v.messages[1] == AddDeclaration("ide", Get(env.loadQodanaYaml(files.effectiveQodanaYamlPath), v.mismatch.value), localQodanaYamlPathFromRoot))
  {
    var effective := env.loadQodanaYaml(files.effectiveQodanaYamlPath);
    CompareAcceptsIff(effective, files.localQodanaYamlPath, env.loadQodanaYaml, localQodanaYamlPathFromRoot);
    if !Unconstrained(effective) && files.localQodanaYamlPath != "" then
      IdeTakesPrecedence(effective, files.localQodanaYamlPath, env.loadQodanaYaml, localQodanaYamlPathFromRoot);
      CompareLayers(effective, files.localQodanaYamlPath, env.loadQodanaYaml, localQodanaYamlPathFromRoot)
    else
      CompareLayers(effective, files.localQodanaYamlPath, env.loadQodanaYaml, localQodanaYamlPathFromRoot)
  }

  /** The local yaml path in use: the caller's, or the discovered default
      when the caller passed "". */
  function LocalYamlPath(env: Env, projectDir: string, localQodanaYamlPath: string): string {
    if localQodanaYamlPath == "" then env.findDefaultLocalNotEffectiveQodanaYaml(projectDir)
    else localQodanaYamlPath
  }

  /** Everything `CreateEffectiveConfigFiles` does before it launches the
      resolver: pick the local yaml, stage the jar, build the vector. */
  function PrepareLaunch(env: Env, projectDir: string, localQodanaYamlPath: string,
                         globalConfigurationsFile: string, globalConfigId: string,
                         jrePath: string, systemDir: string, effectiveConfigDirName: string): (r: Outcome<seq<string>>)
    ensures !r.Ok? ==> r.Fatal?
    ensures r.Ok? <==>
      && CreateConfigLoaderCliJar(env, systemDir).Ok?
      && CliArgsSucceed(env, jrePath, JarPath(env, systemDir),
                        env.localNotEffectivePathWithProject(projectDir, LocalYamlPath(env, projectDir, localQodanaYamlPath)),
                        globalConfigurationsFile, env.join(systemDir, effectiveConfigDirName))
    // a staging failure is that failure; otherwise the builder's outcome,
    // fatal or vector, for the local yaml in use is the result
    ensures CreateConfigLoaderCliJar(env, systemDir).Fatal? ==> r == Fatal(CreateConfigLoaderCliJar(env, systemDir).reason)
    ensures CreateConfigLoaderCliJar(env, systemDir).Ok? ==>
              r == ConfigurationLoaderCliArgs(env, jrePath, JarPath(env, systemDir),
                                              env.localNotEffectivePathWithProject(projectDir, LocalYamlPath(env, projectDir, localQodanaYamlPath)),
                                              globalConfigurationsFile, globalConfigId,
                                              env.join(systemDir, effectiveConfigDirName))
    ensures r.Ok? ==> Parse(r.value).Some?
    ensures r.Ok? ==>
      (Parse(r.value).value.localYaml.Some? <==>
         env.stat(env.localNotEffectivePathWithProject(projectDir, LocalYamlPath(env, projectDir, localQodanaYamlPath))) == Present)
  {
    var local := LocalYamlPath(env, projectDir, localQodanaYamlPath);
    var jar :- CreateConfigLoaderCliJar(env, systemDir);
    var dir := env.join(systemDir, effectiveConfigDirName);
    var localFull := env.localNotEffectivePathWithProject(projectDir, local);
    ConfigurationLoaderCliArgs(env, jrePath, jar, localFull, globalConfigurationsFile, globalConfigId, dir)
  }

  /** What a completed resolution hands back: the files, the check's
      error (None for nil) and the messages emitted on the way. */
  datatype Resolution = Resolution(files: Files, mismatch: Option<Field>, messages: seq<Message>)

  /** `CreateEffectiveConfigFiles`. `launch` stands for
      `utils.LaunchAndLog(logDir, "config-loader-cli", args...)`. */
  function CreateEffectiveConfigFiles(env: Env, launch: (string, seq<string>) -> LaunchResult,
                                      projectDir: string, localQodanaYamlPath: string,
                                      globalConfigurationsFile: string, globalConfigId: string,
                                      jrePath: string, systemDir: string, effectiveConfigDirName: string,
                                      logDir: string): (r: Outcome<Resolution>)
    // a failure before the launch is that failure
    ensures var p := PrepareLaunch(env, projectDir, localQodanaYamlPath, globalConfigurationsFile,
                                   globalConfigId, jrePath, systemDir, effectiveConfigDirName);
      && (p.Fatal? ==> r == Fatal(p.reason))
      // a positive status or a launch error exits with the resolver's status
      && (r.Exit? <==> p.Ok? && LaunchStops(launch(logDir, p.value)))
      && (r.Exit? ==> r.code == launch(logDir, p.value).res)
      && (r.Ok? ==> p.Ok? && !LaunchStops(launch(logDir, p.value)))
    // after a launch that does not stop, the output directory is classified:
    // its fatal is passed on, otherwise its record is the one returned
    ensures var p := PrepareLaunch(env, projectDir, localQodanaYamlPath, globalConfigurationsFile,
                                   globalConfigId, jrePath, systemDir, effectiveConfigDirName);
      p.Ok? && !LaunchStops(launch(logDir, p.value)) ==>
        var g := GetEffectiveQodanaYamlData(env, env.join(systemDir, effectiveConfigDirName));
        && (g.Fatal? ==> r == Fatal(g.reason))
        && (g.Ok? ==> r.Ok? && r.value.files == g.value)
    // a returned record lives in the output directory and is coherent
    ensures r.Ok? ==> r.value.files.configDir == env.join(systemDir, effectiveConfigDirName)
    ensures r.Ok? ==> OutputSet.Coherent(OutputsOf(r.value.files))
    // the check runs against the local yaml in use and its error is passed on
    ensures r.Ok? ==> (
              r.value.mismatch == Verify(env, r.value.files, LocalYamlPath(env, projectDir, localQodanaYamlPath)).mismatch)
    ensures r.Ok? && r.value.mismatch.Some? ==> (
              && |r.value.messages| == 2
              && r.value.messages[0].Mismatched?
              && r.value.messages[0].localPath == LocalYamlPath(env, projectDir, localQodanaYamlPath))
    // success is announced only when the check passed
    ensures r.Ok? ==> (r.value.mismatch.None? <==> r.value.messages == [Loaded])
    // an error comes with exactly the check's two messages
    ensures r.Ok? && r.value.mismatch.Some? ==>
              r.value.messages == Verify(env, r.value.files, LocalYamlPath(env, projectDir, localQodanaYamlPath)).messages
  {
    var args :- PrepareLaunch(env, projectDir, localQodanaYamlPath, globalConfigurationsFile,
                              globalConfigId, jrePath, systemDir, effectiveConfigDirName);
    var launched := launch(logDir, args);
    if LaunchStops(launched) then Exit(launched.res)
    else
      var dir := env.join(systemDir, effectiveConfigDirName);
      var files :- GetEffectiveQodanaYamlData(env, dir);
      var verdict := Verify(env, files, LocalYamlPath(env, projectDir, localQodanaYamlPath));
      if verdict.mismatch.Some? then Ok(Resolution(files, verdict.mismatch, verdict.messages))
      else Ok(Resolution(files, None, verdict.messages + [Loaded]))
  }

  /** Passing "" as the local yaml is the same as passing the discovered
      default explicitly. */
  lemma EmptyLocalMeansDefault(env: Env, launch: (string, seq<string>) -> LaunchResult,
                               projectDir: string, globalConfigurationsFile: string, globalConfigId: string,
                               jrePath: string, systemDir: string, effectiveConfigDirName: string, logDir: string)
    ensures CreateEffectiveConfigFiles(env, launch, projectDir, "", globalConfigurationsFile, globalConfigId,
                                       jrePath, systemDir, effectiveConfigDirName, logDir)
         == CreateEffectiveConfigFiles(env, launch, projectDir, env.findDefaultLocalNotEffectiveQodanaYaml(projectDir),
                                       globalConfigurationsFile, globalConfigId,
                                       jrePath, systemDir, effectiveConfigDirName, logDir)
  {
  }
}
