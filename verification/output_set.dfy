/** The files `config-loader-cli` leaves in its output directory and the
    rules `getEffectiveQodanaYamlData` enforces on which of them may be
    present together. A path is kept when the file exists and replaced
    by "" when it does not. */
module OutputSet {
  import opened Wrappers
  import opened Host

  const EffectiveQodanaYamlName := "effective.qodana.yaml"
  const LocalQodanaYamlName := "qodana.yaml"
  const QodanaConfigJsonName := "qodana-config.json"

  /** The three probed paths, each either "" or the joined path. */
  datatype Outputs = Outputs(effective: string, local: string, configJson: string)

  /** The two presence implications: an effective yaml comes with its
      qodana-config.json, and a local echo comes with an effective yaml. */
  predicate Coherent(o: Outputs) {
    && (o.effective != "" ==> o.configJson != "")
    && (o.local != "" ==> o.effective != "")
  }

  function PathOf(env: Env, dir: string, name: string): string {
    env.join(dir, name)
  }

  /** Reference reading of one probe: the joined path when the file is
      there, "" otherwise (a stat error is not covered by it). */
  function Expected(env: Env, dir: string, name: string): string {
    if env.stat(PathOf(env, dir, name)) == Present then PathOf(env, dir, name) else ""
  }

  predicate ProbesClean(env: Env, dir: string) {
    && env.stat(PathOf(env, dir, EffectiveQodanaYamlName)) != StatError
    && env.stat(PathOf(env, dir, LocalQodanaYamlName)) != StatError
    && env.stat(PathOf(env, dir, QodanaConfigJsonName)) != StatError
  }

  function ExpectedOutputs(env: Env, dir: string): Outputs {
    Outputs(Expected(env, dir, EffectiveQodanaYamlName),
            Expected(env, dir, LocalQodanaYamlName),
            Expected(env, dir, QodanaConfigJsonName))
  }

  /** One probe as the Go code writes it: join, stat, blank out if absent. */
  function Discover(env: Env, dir: string, name: string): Outcome<string> {
    var path := PathOf(env, dir, name);
    var found :- IsFileExists(env, path);
    Ok(if found then path else "")
  }

  /** The probing and checking half of `getEffectiveQodanaYamlData`. */
  function Classify(env: Env, dir: string): (r: Outcome<Outputs>)
    // accepted exactly when every stat worked and the set is coherent
    ensures r.Ok? <==> ProbesClean(env, dir) && Coherent(ExpectedOutputs(env, dir))
    ensures r.Ok? ==> r.value == ExpectedOutputs(env, dir) && Coherent(r.value)
    ensures !r.Ok? ==> r.Fatal?
    // a stat error is reported for the first of the three files it hits
    ensures env.stat(PathOf(env, dir, EffectiveQodanaYamlName)) == StatError ==>
              r == Fatal(StatFailed(PathOf(env, dir, EffectiveQodanaYamlName)))
    ensures env.stat(PathOf(env, dir, EffectiveQodanaYamlName)) != StatError
            && env.stat(PathOf(env, dir, LocalQodanaYamlName)) == StatError ==>
              r == Fatal(StatFailed(PathOf(env, dir, LocalQodanaYamlName)))
    ensures env.stat(PathOf(env, dir, EffectiveQodanaYamlName)) != StatError
            && env.stat(PathOf(env, dir, LocalQodanaYamlName)) != StatError
            && env.stat(PathOf(env, dir, QodanaConfigJsonName)) == StatError ==>
              r == Fatal(StatFailed(PathOf(env, dir, QodanaConfigJsonName)))
    // the json rule is checked before the local-echo rule
    ensures ProbesClean(env, dir) ==>
              (r == Fatal(EffectiveWithoutConfigJson) <==>
                 ExpectedOutputs(env, dir).effective != "" && ExpectedOutputs(env, dir).configJson == "")
    ensures ProbesClean(env, dir) ==>
              (r == Fatal(LocalWithoutEffective) <==>
                 ExpectedOutputs(env, dir).local != "" && ExpectedOutputs(env, dir).effective == "")
  {
    var effective :- Discover(env, dir, EffectiveQodanaYamlName);
    var local :- Discover(env, dir, LocalQodanaYamlName);
    var configJson :- Discover(env, dir, QodanaConfigJsonName);
    if effective != "" && configJson == "" then Fatal(EffectiveWithoutConfigJson)
    else if local != "" && effective == "" then Fatal(LocalWithoutEffective)
    else Ok(Outputs(effective, local, configJson))
  }

  /** With a `Join` that never loses a non-empty name, each classified
      path is non-empty exactly when its file exists, and a non-empty path
      is the output directory joined with that file's fixed name. */
  lemma ClassifiedPresence(env: Env, dir: string)
    requires JoinKeepsNames(env)
    requires Classify(env, dir).Ok?
    ensures var o := Classify(env, dir).value;
      && (o.effective != "" <==> env.stat(env.join(dir, EffectiveQodanaYamlName)) == Present)
      && (o.local != "" <==> env.stat(env.join(dir, LocalQodanaYamlName)) == Present)
      && (o.configJson != "" <==> env.stat(env.join(dir, QodanaConfigJsonName)) == Present)
      && (o.effective == "" || o.effective == env.join(dir, EffectiveQodanaYamlName))
      && (o.local == "" || o.local == env.join(dir, LocalQodanaYamlName))
      && (o.configJson == "" || o.configJson == env.join(dir, QodanaConfigJsonName))
  {
    assert env.join(dir, EffectiveQodanaYamlName) != "";
    assert env.join(dir, LocalQodanaYamlName) != "";
    assert env.join(dir, QodanaConfigJsonName) != "";
  }
}
