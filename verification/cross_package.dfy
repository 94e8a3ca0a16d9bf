/** How the two packages relate: they classify the output directory the
    same way, and parsing the effective yaml once (as `effectiveyaml`
    does) gives the same check as re-loading it (as `effectiveconfig`
    does). They differ in the json path, which only `effectiveconfig`
    keeps. */
module CrossPackage {
  import opened Host
  import OutputSet
  import EffectiveConfig
  import EffectiveYaml

  lemma ClassifiersAgree(env: Env, dir: string)
    ensures var f := EffectiveConfig.GetEffectiveQodanaYamlData(env, dir);
            var d := EffectiveYaml.GetEffectiveQodanaYamlData(env, dir);
      && (f.Ok? <==> d.Ok?)
      && (f.Fatal? ==> d.Fatal? && f.reason == d.reason)
      && (f.Ok? ==>
            && f.value.configDir == d.value.configDir
            && f.value.effectiveQodanaYamlPath == d.value.effectiveQodanaYamlPath
            && f.value.localQodanaYamlPath == d.value.localQodanaYamlPath
            && d.value.qodanaConfigJsonPath == ""
            && (f.value.effectiveQodanaYamlPath != "" ==> f.value.qodanaConfigJsonPath != ""))
  {
  }

  /** On the same output directory both packages return the same error
      and emit the same messages. */
  lemma ChecksAgree(env: Env, dir: string, localQodanaYamlPathFromRoot: string)
    requires EffectiveConfig.GetEffectiveQodanaYamlData(env, dir).Ok?
    ensures EffectiveYaml.GetEffectiveQodanaYamlData(env, dir).Ok?
    ensures EffectiveYaml.Verify(env, EffectiveYaml.GetEffectiveQodanaYamlData(env, dir).value, localQodanaYamlPathFromRoot)
         == EffectiveConfig.Verify(env, EffectiveConfig.GetEffectiveQodanaYamlData(env, dir).value, localQodanaYamlPathFromRoot)
  {
  }
}
