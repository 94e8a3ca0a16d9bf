/** The `effectiveyaml` package: the same resolution as `effectiveconfig`,
    returning a `Data` record. It always works from the discovered
    default local yaml, parses the effective yaml once when classifying,
    and never fills in `QodanaConfigJsonPath`. */
module EffectiveYaml {
  import opened Wrappers
  import opened Host
  import opened ConfigLoader
  import opened OutputSet
  import opened Consistency

  datatype Data = Data(
    configDir: string,
    effectiveQodanaYamlPath: string,
    localQodanaYamlPath: string,
    qodanaConfigJsonPath: string,
    effectiveQodanaYaml: QodanaYaml)

  /** `getEffectiveQodanaYamlData` of this package. */
  function GetEffectiveQodanaYamlData(env: Env, dir: string): (r: Outcome<Data>)
    ensures r.Ok? <==> ProbesClean(env, dir) && OutputSet.Coherent(ExpectedOutputs(env, dir))
    ensures !r.Ok? ==> r.Fatal? && r.reason == Classify(env, dir).reason
    ensures r.Ok? ==> r.value.configDir == dir
    ensures r.Ok? ==> (
              && r.value.effectiveQodanaYamlPath == ExpectedOutputs(env, dir).effective
              && r.value.localQodanaYamlPath == ExpectedOutputs(env, dir).local)
    // the json file was checked for, but its path is not kept
    ensures r.Ok? ==> r.value.qodanaConfigJsonPath == ""
    ensures r.Ok? && r.value.effectiveQodanaYamlPath != "" ==> ExpectedOutputs(env, dir).configJson != ""
    ensures r.Ok? && r.value.localQodanaYamlPath != "" ==> r.value.effectiveQodanaYamlPath != ""
    // the stored identity is the parse of the stored effective path
    ensures r.Ok? ==> r.value.effectiveQodanaYaml == env.loadQodanaYaml(r.value.effectiveQodanaYamlPath)
  {
    var o :- Classify(env, dir);
    Ok(Data(dir, o.effective, o.local, "", env.loadQodanaYaml(o.effective)))
  }

  /** A record with an effective yaml never satisfies the json half of the
      presence rule on its own fields, because the json path is dropped. */
  lemma DataDropsConfigJson(env: Env, dir: string)
    requires GetEffectiveQodanaYamlData(env, dir).Ok?
    requires GetEffectiveQodanaYamlData(env, dir).value.effectiveQodanaYamlPath != ""
    ensures var d := GetEffectiveQodanaYamlData(env, dir).value;
      !OutputSet.Coherent(Outputs(d.effectiveQodanaYamlPath, d.localQodanaYamlPath, d.qodanaConfigJsonPath))
  {
  }

  /** `verifyEffectiveQodanaYamlIdeAndLinterMatchLocal` of this package:
      the effective identity is read from the record, not re-loaded. */
  function Verify(env: Env, data: Data, localQodanaYamlPathFromRoot: string): (v: Verdict)
    ensures var effective := data.effectiveQodanaYaml;
      && (v.mismatch.None? <==>
            || Unconstrained(effective)
            || data.localQodanaYamlPath == ""
            || effective == env.loadQodanaYaml(data.localQodanaYamlPath))
      && (v.mismatch == Some(Ide) <==>
            && !Unconstrained(effective) && data.localQodanaYamlPath != ""
            && effective.ide != env.loadQodanaYaml(data.localQodanaYamlPath).ide)
      && (v.mismatch == Some(Linter) <==>
            && !Unconstrained(effective) && data.localQodanaYamlPath != ""
            && effective.ide == env.loadQodanaYaml(data.localQodanaYamlPath).ide
            && effective.linter != env.loadQodanaYaml(data.localQodanaYamlPath).linter)
    ensures v.mismatch.None? ==> v.messages == []
    ensures v.mismatch.Some? ==> (
              && |v.messages| == 2
              && v.messages[0] == Mismatched(Key(v.mismatch.value), Get(data.effectiveQodanaYaml, v.mismatch.value),
                                             localQodanaYamlPathFromRoot)
              // the hint always asks for an `ide:` entry
              && v.messages[1] == AddDeclaration("ide", Get(data.effectiveQodanaYaml, v.mismatch.value), localQodanaYamlPathFromRoot))
  {
    var effective := data.effectiveQodanaYaml;
    CompareAcceptsIff(effective, data.localQodanaYamlPath, env.loadQodanaYaml, localQodanaYamlPathFromRoot);
    if !Unconstrained(effective) && data.localQodanaYamlPath != "" then
      IdeTakesPrecedence(effective, data.localQodanaYamlPath, env.loadQodanaYaml, localQodanaYamlPathFromRoot);
      CompareLayers(effective, data.localQodanaYamlPath, env.loadQodanaYaml, localQodanaYamlPathFromRoot)
    else
      CompareLayers(effective, data.localQodanaYamlPath, env.loadQodanaYaml, localQodanaYamlPathFromRoot)
  }

  /** The steps of `BuildEffectiveYaml` before the launch. It has no local
      yaml parameter: the discovered default is always used. */
  function PrepareLaunch(env: Env, projectDir: string,
                         globalConfigurationsFile: string, globalConfigId: string,
                         jrePath: string, systemDir: string, effectiveConfigDirName: string): (r: Outcome<seq<string>>)
    ensures !r.Ok? ==> r.Fatal?
    ensures r.Ok? <==>
      && CreateConfigLoaderCliJar(env, systemDir).Ok?
      && CliArgsSucceed(env, jrePath, JarPath(env, systemDir),
                        env.localNotEffectivePathWithProject(projectDir, env.findDefaultLocalQodanaYaml(projectDir)),
                        globalConfigurationsFile, env.join(systemDir, effectiveConfigDirName))
    // a staging failure is that failure; otherwise the builder's outcome,
    // fatal or vector, for the local yaml in use is the result
    ensures CreateConfigLoaderCliJar(env, systemDir).Fatal? ==> r == Fatal(CreateConfigLoaderCliJar(env, systemDir).reason)
    ensures CreateConfigLoaderCliJar(env, systemDir).Ok? ==>
              r == ConfigurationLoaderCliArgs(env, jrePath, JarPath(env, systemDir),
                                              env.localNotEffectivePathWithProject(projectDir, env.findDefaultLocalQodanaYaml(projectDir)),
                                              globalConfigurationsFile, globalConfigId,
                                              env.join(systemDir, effectiveConfigDirName))
    ensures r.Ok? ==> Parse(r.value).Some?
    ensures r.Ok? ==>
      (Parse(r.value).value.localYaml.Some? <==>
         env.stat(env.localNotEffectivePathWithProject(projectDir, env.findDefaultLocalQodanaYaml(projectDir))) == Present)
  {
    var local := env.findDefaultLocalQodanaYaml(projectDir);
    var jar :- CreateConfigLoaderCliJar(env, systemDir);
    var dir := env.join(systemDir, effectiveConfigDirName);
    var localFull := env.localNotEffectivePathWithProject(projectDir, local);
    ConfigurationLoaderCliArgs(env, jrePath, jar, localFull, globalConfigurationsFile, globalConfigId, dir)
  }

  datatype Resolution = Resolution(data: Data, mismatch: Option<Field>, messages: seq<Message>)

  /** `BuildEffectiveYaml`. `launch` stands for
      `utils.LaunchAndLog(logDir, "config-loader-cli", args...)`. */
  function BuildEffectiveYaml(env: Env, launch: (string, seq<string>) -> LaunchResult,
                              projectDir: string, localQodanaYamlPathFromRoot: string,
                              globalConfigurationsFile: string, globalConfigId: string,
                              jrePath: string, systemDir: string, effectiveConfigDirName: string,
                              logDir: string): (r: Outcome<Resolution>)
    ensures var p := PrepareLaunch(env, projectDir, globalConfigurationsFile, globalConfigId,
                                   jrePath, systemDir, effectiveConfigDirName);
      && (p.Fatal? ==> r == Fatal(p.reason))
      && (r.Exit? <==> p.Ok? && LaunchStops(launch(logDir, p.value)))
      && (r.Exit? ==> r.code == launch(logDir, p.value).res)
      && (r.Ok? ==> p.Ok? && !LaunchStops(launch(logDir, p.value)))
    // after a launch that does not stop, the output directory is classified:
    // its fatal is passed on, otherwise its record is the one returned
    ensures var p := PrepareLaunch(env, projectDir, globalConfigurationsFile, globalConfigId,
                                   jrePath, systemDir, effectiveConfigDirName);
      p.Ok? && !LaunchStops(launch(logDir, p.value)) ==>
        var g := GetEffectiveQodanaYamlData(env, env.join(systemDir, effectiveConfigDirName));
        && (g.Fatal? ==> r == Fatal(g.reason))
        && (g.Ok? ==> r.Ok? && r.value.data == g.value)
    ensures r.Ok? ==> r.value.data.configDir == env.join(systemDir, effectiveConfigDirName)
    ensures r.Ok? ==> r.value.data.qodanaConfigJsonPath == ""
    ensures r.Ok? ==> r.value.data.effectiveQodanaYaml == env.loadQodanaYaml(r.value.data.effectiveQodanaYamlPath)
    // messages name the discovered default, whatever the caller passed
    ensures r.Ok? ==> (
              r.value.mismatch == Verify(env, r.value.data, env.findDefaultLocalQodanaYaml(projectDir)).mismatch)
    ensures r.Ok? && r.value.mismatch.Some? ==> (
              && |r.value.messages| == 2
              && r.value.messages[0].Mismatched?
              && r.value.messages[0].localPath == env.findDefaultLocalQodanaYaml(projectDir))
    ensures r.Ok? ==> (r.value.mismatch.None? <==> r.value.messages == [Loaded])
    // an error comes with exactly the check's two messages
    ensures r.Ok? && r.value.mismatch.Some? ==>
              r.value.messages == Verify(env, r.value.data, env.findDefaultLocalQodanaYaml(projectDir)).messages
  {
    var localFromRoot := env.findDefaultLocalQodanaYaml(projectDir);
    var args :- PrepareLaunch(env, projectDir, globalConfigurationsFile, globalConfigId,
                              jrePath, systemDir, effectiveConfigDirName);
    var launched := launch(logDir, args);
    if LaunchStops(launched) then Exit(launched.res)
    else
      var dir := env.join(systemDir, effectiveConfigDirName);
      var data :- GetEffectiveQodanaYamlData(env, dir);
      var verdict := Verify(env, data, localFromRoot);
      if verdict.mismatch.Some? then Ok(Resolution(data, verdict.mismatch, verdict.messages))
      else Ok(Resolution(data, None, verdict.messages + [Loaded]))
  }

  /** The local yaml argument has no effect on the outcome. */
  lemma BuildIgnoresLocalArgument(env: Env, launch: (string, seq<string>) -> LaunchResult,
                                  projectDir: string, a: string, b: string,
                                  globalConfigurationsFile: string, globalConfigId: string,
                                  jrePath: string, systemDir: string, effectiveConfigDirName: string, logDir: string)
    ensures BuildEffectiveYaml(env, launch, projectDir, a, globalConfigurationsFile, globalConfigId,
                               jrePath, systemDir, effectiveConfigDirName, logDir)
         == BuildEffectiveYaml(env, launch, projectDir, b, globalConfigurationsFile, globalConfigId,
                               jrePath, systemDir, effectiveConfigDirName, logDir)
  {
  }
}
