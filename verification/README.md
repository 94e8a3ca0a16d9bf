# Effective configuration resolution and git wrapper: a Dafny model

This project models the layer of the Qodana CLI that resolves the
*effective configuration*. It stages `config-loader-cli.jar` and builds
the argument vector for it. It runs the jar through an abstract launcher
and classifies the three files the jar leaves in its output directory
(`effective.qodana.yaml`, `qodana.yaml`, `qodana-config.json`). It then
checks that the `ide`/`linter` declared by the merged configuration match
those of the project's own `qodana.yaml`. The layer exists twice, in the
`effectiveconfig` package (result `Files`) and in the `effectiveyaml`
package (result `Data`). Their differences are kept:

- `effectiveyaml` always replaces the caller's local path with the discovered default.
- `effectiveyaml` parses the effective yaml once and stores it; `effectiveconfig` reloads it inside the check.
- `effectiveyaml` never stores the `qodana-config.json` path.

The project also models the argument vectors and the result shaping of the
`git` wrapper package.

Every process exit becomes an explicit outcome: `Outcome` is
`Ok(value) | Fatal(reason) | Exit(code)`, for `log.Fatal` and `os.Exit(res)`.
The file system, `filepath`, the quoting helpers, `qdyaml` discovery and
parsing, the launcher and the git process runner are all uninterpreted
functions passed in as parameters (`Host.Env`, the `launch` argument,
`Git.GitEnv`).

Modules: `Wrappers` (outcomes), `Host` (oracles, `isFileExists`),
`ConfigLoader` (jar staging, argument vector and its parser),
`OutputSet` (classification of the output directory), `Consistency` (the
ide/linter check), `EffectiveConfig`, `EffectiveYaml`, `CrossPackage`
(how the two packages relate), `Text` (`strings.TrimSpace`,
`strings.Contains`, `utils.Reverse`) and `Git`.

Three pieces are shared between the packages because their Go code is
the same in both apart from the wording of two fatal messages:
`createConfigLoaderCliJar`, `configurationLoaderCliArgs` and the
classification and comparison parts of `getEffectiveQodanaYamlData` and
`verifyEffectiveQodanaYamlIdeAndLinterMatchLocal`. The rows below cite
the `effectiveconfig` copy of them. The `effectiveyaml` copies are at
`platform/effectiveyaml/effective_yaml.go:86-165` and `:181-186`.

## Behaviour of the code worth noting

- The global configuration id is quoted with `utils.QuoteForWindows` before it goes into the vector, like the other paths.
- `os.Exit` and `log.Fatal` do not run deferred calls, so after a fatal error or a resolver failure the staged jar stays behind.
- The process exits only when `res > 0 || err != nil`, with status `res`. A negative status without an error carries on. A launch error exits with whatever status came with it, possibly 0 (`Host.LaunchStops`).
- Both packages parse the effective yaml path unconditionally: `effectiveconfig` loads `EffectiveQodanaYamlPath` inside the check, and `effectiveyaml` parses it while classifying. When the effective file is absent, that path is `""`, and `""` is what gets parsed.
- `effectiveyaml` requires `qodana-config.json` to be present alongside the effective yaml, but does not keep its path (`EffectiveYaml.DataDropsConfigJson`).
- On a mismatch, the remediation hint always asks for an `ide:` entry, even when the linter is what differs (see "## Findings").

## Model

| member | source | states |
|---|---|---|
| `Host.IsFileExists` | platform/effectiveconfig/effective_yaml.go:196-205 | true on a successful stat, false when the file does not exist, fatal naming the path on any other stat error |
| `Host.Abs` | platform/effectiveconfig/effective_yaml.go:129-136 | the absolute path when `filepath.Abs` succeeds, otherwise fatal naming the input path |
| `ConfigLoader.CreateConfigLoaderCliJar` | platform/effectiveconfig/effective_yaml.go:87-105 | returns `systemDir/tools/config-loader-cli.jar` exactly when the stat works, a stale jar can be removed, the directory can be created and the jar written; each failure is fatal, in that order, naming the stat, removal, directory-creation or write failure |
| `ConfigLoader.ConfigurationLoaderCliArgs` | platform/effectiveconfig/effective_yaml.go:107-166 | empty runtime path is fatal, then empty jar path, then Abs failures in the order output dir, local yaml, global file; on success the vector starts with `[quoteIfSpace(quote(jre)), "-jar", quote(jar), "--effective-config-out-dir", quote(abs(dir))]` and parses back to the expected arguments: `--local-qodana-yaml` with the quoted absolute path iff the file exists, `--global-configs-file` iff the file string is non-empty, `--global-config-id` iff the id is non-empty, in that order; length is 5 plus 2 per optional pair |
| `ConfigLoader.ParseRender` | platform/effectiveconfig/effective_yaml.go:123-165 | every vector with the fixed prefix and ordered optional pairs reads back as the arguments it was built from |
| `ConfigLoader.RenderParse` | platform/effectiveconfig/effective_yaml.go:123-165 | every vector that reads back is exactly the rendering of what it reads as, so the layout and its reader are inverse |
| `ConfigLoader.ParsedParts` | platform/effectiveconfig/effective_yaml.go:123-165 | a vector that reads back has the runtime, `-jar`, the jar, `--effective-config-out-dir` and the output directory at positions 0-4, and the rest is exactly the optional pairs it reads as, in order |
| `ConfigLoader.RenderInjective` | platform/effectiveconfig/effective_yaml.go:123-165 | different argument sets never produce the same vector, whatever strings the paths hold |
| `ConfigLoader.RenderLength` | platform/effectiveconfig/effective_yaml.go:137-165 | vector length is 5 plus 2 for each optional pair present |
| `OutputSet.Classify` | platform/effectiveconfig/effective_yaml.go:168-187 | accepted exactly when all three stats work and the set is coherent (effective yaml implies qodana-config.json, local echo implies effective yaml); stat errors are fatal in the probe order; the json rule is reported before the local-echo rule; each kept path is the joined path of a present file and "" for an absent one |
| `OutputSet.ClassifiedPresence` | platform/effectiveconfig/effective_yaml.go:168-180 | when `Join` keeps non-empty names, each classified path is non-empty iff its file exists and is then `Join(dir, fixed name)` |
| `Consistency.CompareLayers` | platform/effectiveconfig/effective_yaml.go:214-236 | no error and no message when the effective ide and linter are both empty or there is no local echo; otherwise the error names the first field, in the order ide then linter, on which the layers differ; on an error exactly two messages are emitted: the mismatch line naming that field, its effective value and the local path, then a hint that asks for `ide: <effective value of that field>` whichever field differs |
| `Consistency.CompareAcceptsIff` | platform/effectiveconfig/effective_yaml.go:214-236 | no error iff the effective layer declares nothing, there is no local echo, or the two layers are equal |
| `Consistency.IdeTakesPrecedence` | platform/effectiveconfig/effective_yaml.go:224-234 | once a check is due, the ide error is returned iff the ides differ, whatever the linters; the linter error iff the ides are equal and the linters differ; comparison is exact string equality |
| `Consistency.CompareLayersIntended` | platform/effectiveconfig/effective_yaml.go:223-234 | the comparison with the hint the message evidently means: the same error as the written comparison and the same first message; the hint names the key of the field that differs, with its effective value and the local path |
| `Consistency.HintsDifferOnlyForLinter` | platform/effectiveconfig/effective_yaml.go:223-234 | the written and the intended comparison return the same error, and their messages differ exactly when the linter is the field that differs |
| `Consistency.WrittenHintMisnamesLinter` | platform/effectiveconfig/effective_yaml.go:223-232 | on a linter-only mismatch (effective linter `jetbrains/qodana-jvm`, local echo declaring nothing) the written comparison asks for `ide: jetbrains/qodana-jvm` |
| `EffectiveConfig.GetEffectiveQodanaYamlData` | platform/effectiveconfig/effective_yaml.go:168-194 | a returned `Files` has `ConfigDir` equal to the input directory, the three classified paths (json path included) and satisfies both presence implications; any failure is the classifier's fatal reason |
| `EffectiveConfig.Verify` | platform/effectiveconfig/effective_yaml.go:207-237 | with the effective identity obtained by loading the effective path: no error iff unconstrained, no local echo, or equal layers; ide error iff the ides differ; linter error iff the ides agree and the linters differ; on an error the first message names the field, its effective value and the local path, and the hint asks for `ide: <effective value of the mismatching field>` |
| `EffectiveConfig.PrepareLaunch` | platform/effectiveconfig/effective_yaml.go:50-72 | a jar-staging fatal is passed through with its reason; otherwise the result is exactly the argument builder's outcome (its fatal, or its vector) for the staged jar, the output directory `Join(systemDir, dirName)` and the local yaml in use (the caller's, or the discovered default when the caller passed ""); the vector carries the local flag iff that yaml exists |
| `EffectiveConfig.CreateEffectiveConfigFiles` | platform/effectiveconfig/effective_yaml.go:40-85 | a fatal before the launch is passed through; a positive launcher status or a launch error ends in `Exit(status)`; otherwise the output directory `Join(systemDir, dirName)` is classified: its fatal is passed through, or its `Files` record is the one returned, with the check's error for the local yaml in use, and "Loaded" is announced iff there was no error; on an error the messages are exactly the check's two messages, without "Loaded" |
| `EffectiveConfig.EmptyLocalMeansDefault` | platform/effectiveconfig/effective_yaml.go:50-52 | passing "" as the local yaml behaves exactly as passing the discovered default |
| `EffectiveYaml.GetEffectiveQodanaYamlData` | platform/effectiveyaml/effective_yaml.go:167-195 | accepted under the same conditions as the other package; the returned `Data` keeps the effective and local paths, leaves the json path "" although the json file was required, and stores the parse of the effective path |
| `EffectiveYaml.DataDropsConfigJson` | platform/effectiveyaml/effective_yaml.go:188-194 | a returned record with an effective yaml never satisfies the json presence rule on its own fields |
| `EffectiveYaml.Verify` | platform/effectiveyaml/effective_yaml.go:208-237 | the same decision as the other package, made on the stored identity without reloading the effective yaml; on an error the first message names the field, its effective value and the local path, and the hint asks for `ide: <effective value of the mismatching field>` |
| `EffectiveYaml.PrepareLaunch` | platform/effectiveyaml/effective_yaml.go:48-71 | a jar-staging fatal is passed through with its reason; otherwise the result is exactly the argument builder's outcome for the staged jar, the output directory and the discovered default local yaml; the vector carries the local flag iff that file exists |
| `EffectiveYaml.BuildEffectiveYaml` | platform/effectiveyaml/effective_yaml.go:38-84 | a fatal before the launch is passed through; a positive status or a launch error ends in `Exit(status)`; otherwise the output directory `Join(systemDir, dirName)` is classified: its fatal is passed through, or its `Data` record (empty json path, stored identity) is the one returned, checked against the discovered default, whose path the messages name; on an error the messages are exactly the check's two messages, without "Loaded" |
| `EffectiveYaml.BuildIgnoresLocalArgument` | platform/effectiveyaml/effective_yaml.go:48 | the outcome does not depend on the `localQodanaYamlPathFromRoot` argument |
| `CrossPackage.ClassifiersAgree` | platform/effectiveyaml/effective_yaml.go:167-195 | both packages accept or refuse the same output directory with the same fatal reason and the same paths; only `effectiveconfig` keeps the json path |
| `CrossPackage.ChecksAgree` | platform/effectiveyaml/effective_yaml.go:208-220 | parsing the effective yaml once gives the same error and messages as reloading it |
| `Text.TrimSpace` | platform/git/git.go:93 | the result is an infix of the input with only spaces (Go's `unicode.IsSpace`) before and after it, and neither starts nor ends with a space |
| `Text.TrimSpaceUnique` | platform/git/git.go:93 | those two properties determine the result: any such infix is the trimmed string |
| `Text.TrimSpaceIdempotent` | platform/git/git.go:93 | trimming twice is trimming once |
| `Text.ContainsIffOccurs` | platform/git/git.go:125 | `strings.Contains` holds iff the needle occurs at some index of the haystack |
| `Text.Reverse` | platform/git/git.go:84 | same length, element i of the result is element n-1-i of the input |
| `Text.ReverseInvolution` | platform/git/git.go:84 | reversing twice gives back the input |
| `Git.GitRun` | platform/git/git.go:26-51 | when the logger cannot be created the runner is not called and `("", "", err)` is returned; otherwise `utils.RunCmdRedirectOutput` is called once with `cwd` and the vector `"git"` followed by the command, and its stdout, stderr and error are returned unchanged |
| `Git.ParseArgsOfArgs` | platform/git/git.go:54-124 | every wrapper's argument vector reads back as the command that built it |
| `Git.ArgsOfParseArgs` | platform/git/git.go:54-124 | every vector that reads back is that command's vector |
| `Git.ArgsInjective` | platform/git/git.go:66-74 | no two commands hand the runner the same vector; the vectors of a forced and an unforced checkout differ, even for a ref named `-f` |
| `Git.Reset` | platform/git/git.go:54-57 | unless the logger fails, hands the runner the vector `git reset --soft <sha>`, and returns exactly the error of that run or of the logger |
| `Git.ResetBack` | platform/git/git.go:60-63 | unless the logger fails, hands the runner the vector `git reset 'HEAD@{1}'`, whose last element holds the single quotes as characters, and returns exactly the error of that run or of the logger |
| `Git.Checkout` | platform/git/git.go:66-74 | hands the runner `git checkout -f <where>` when forced and `git checkout <where>` otherwise, and returns exactly the error |
| `Git.Clean` | platform/git/git.go:77-80 | hands the runner `git clean -fdx` and returns exactly the error |
| `Git.Revisions` | platform/git/git.go:83-85 | same length as the `%H` log, element i is log element n-1-i, so the newest entry comes last and the oldest first |
| `Git.RevisionsPermutes` | platform/git/git.go:83-85 | the chronological list holds the same revisions with the same multiplicities as the log |
| `Git.RevisionsTwice` | platform/git/git.go:83-85 | reordering twice gives back the log |
| `Git.RevisionExists` | platform/git/git.go:123-129 | true iff the run of the vector `git show --no-patch <revision>` returned no error and its stderr contains neither the revision nor `fatal:`; so an empty revision, or a logger failure, always gives false |
| `Git.Shape` | platform/git/git.go:88-94 | on error `("", err)`; otherwise no error and the trimmed stdout |
| `Git.Root` | platform/git/git.go:88-94 | "" with the error, or the trimmed stdout of `git rev-parse --show-toplevel`; no error iff the logger and that run succeed; the error is the logger's, or else that run's |
| `Git.RemoteUrl` | platform/git/git.go:97-103 | "" with the error, or the trimmed stdout of `git remote get-url origin`; the error is the logger's, or else that run's |
| `Git.Branch` | platform/git/git.go:106-112 | "" with the error, or the trimmed stdout of `git rev-parse --abbrev-ref HEAD`; the error is the logger's, or else that run's |
| `Git.CurrentRevision` | platform/git/git.go:114-120 | "" with the error, or the trimmed stdout of `git rev-parse HEAD`; the error is the logger's, or else that run's |

## Findings

| source | as written | input that shows it | evidently intended | confidence | as-written member | corrected member |
|---|---|---|---|---|---|---|
| platform/effectiveconfig/effective_yaml.go:223 | one remediation template, "Add \`ide: %s\` to <path>", serves both fields, so a linter mismatch asks for an `ide:` entry holding the linter name (the same template is at platform/effectiveyaml/effective_yaml.go:223) | effective `ide: ""`, `linter: jetbrains/qodana-jvm`; local echo `ide: ""`, `linter: ""`: the hint reads "Add \`ide: jetbrains/qodana-jvm\`" | "Add \`linter: jetbrains/qodana-jvm\`", the key of the field that differs | medium, not executed | `Consistency.WrittenHintMisnamesLinter` | `Consistency.CompareLayersIntended` |

`Consistency.CompareLayers` models the comparison as written, and both
packages' checks use it; `Consistency.WrittenHintMisnamesLinter` shows it
on the input above. `Consistency.CompareLayersIntended` is the corrected
comparison, and `Consistency.HintsDifferOnlyForLinter` proves that the two
return the same error and differ only in the hint of a linter mismatch.

## Left out

- `platform/argflags.go`: cobra flag registration and mutual-exclusion declarations. This is CLI wiring whose meaning lives in the flag library.
- The deferred removal of the staged jar and its warn-only failure. It is an I/O side effect with no observable result.
- Message text. `log.Fatal` becomes `Fatal(reason)` with the condition and the path it names; `msg.ErrorMessage`/`SuccessMessage` become message kinds. The exit status 1 of `log.Fatal` is not represented as a number.
- Logging in `gitRun` and in the resolver launch (`log.Debugf`, logger output, `log.Error` of stderr). It affects no result.
- The file system is one snapshot oracle, consulted before and after the resolver runs. The resolver's writes are abstract: whatever it produced is what `stat` reports for the output files.
- `utils.QuoteForWindows`, `utils.QuoteIfSpace`, `filepath.Abs`/`Join`/`Dir` and `qdyaml` discovery and parsing are uninterpreted functions. `filepath.Join` of three elements is modelled as two nested two-element joins. A parsed yaml has only `ide` and `linter`, and parsing is total.
- `utils.LaunchAndLog`, `utils.RunCmdRedirectOutput` and `LOGGER.GetLogger` are oracles. Their captured output beyond the fields used is not modelled.
- The git wrappers are modelled up to the vector handed to `utils.RunCmdRedirectOutput`. How that helper turns the vector into a process is not modelled: whether it joins it into a shell command line, whether the quotes of `'HEAD@{1}'` are removed, and how git parses its options (so `Checkout` of a ref named `-f` unforced hands git `checkout -f`, which git reads as a forced checkout).
- `Log(cwd, "%H", 0)` is not part of this model. `Git.Revisions` takes the log it returns as its input.
- Repository semantics (HEAD and reflog movement, working-tree state) are not modelled. Neither is a per-revision traversal loop, since none appears in this code.
- Go strings are byte sequences; here they are sequences of Unicode scalar values, so `TrimSpace` and `Contains` on invalid UTF-8 are not modelled.
