/** The cross-layer check `verifyEffectiveQodanaYamlIdeAndLinterMatchLocal`:
    once the merged configuration names an IDE or a linter, the local
    qodana.yaml echoed by the resolver must name the same ones. Both
    packages run this same comparison; they differ only in where the
    effective yaml's identity comes from. */
module Consistency {
  import opened Wrappers
  import opened Host

  datatype Field = Ide | Linter

  /** The yaml key of a field, as it appears in messages. */
  function Key(f: Field): string {
    match f
    case Ide => "ide"
    case Linter => "linter"
  }

  function Get(y: QodanaYaml, f: Field): string {
    match f
    case Ide => y.ide
    case Linter => y.linter
  }

  /** The fields compared, in the order they are compared. */
  const CheckedFields: seq<Field> := [Ide, Linter]

  /** Kinds of user-facing messages. `Mismatched` is the first error line
      (field, effective value, local path); `AddDeclaration` is the
      remediation hint "Add `key: value` to path"; `Loaded` is the success
      line. Their formatting is not modelled. */
  datatype Message =
    | Mismatched(field: string, effectiveValue: string, localPath: string)
    | AddDeclaration(key: string, value: string, localPath: string)
    | Loaded

  /** The error returned (`Some(f)` names the mismatching field) together
      with the messages emitted before returning it. */
  datatype Verdict = Verdict(mismatch: Option<Field>, messages: seq<Message>)

  /** Neither an IDE nor a linter is named: nothing to check. */
  predicate Unconstrained(effective: QodanaYaml) {
    effective.linter == "" && effective.ide == ""
  }

  /** Reference definition: the index of the first field, from `from`
      on, on which the two layers disagree (`|fields|` when there is none). */
  function FirstDifferenceAt(fields: seq<Field>, a: QodanaYaml, b: QodanaYaml, from: nat): (i: nat)
    requires from <= |fields|
    ensures from <= i <= |fields|
    ensures forall k :: from <= k < i ==> Get(a, fields[k]) == Get(b, fields[k])
    ensures i < |fields| ==> Get(a, fields[i]) != Get(b, fields[i])
    decreases |fields| - from
  {
    if from == |fields| || Get(a, fields[from]) != Get(b, fields[from]) then from
    else FirstDifferenceAt(fields, a, b, from + 1)
  }

  /** The first field of `fields` on which the layers disagree, if any. */
  function FirstDifference(fields: seq<Field>, a: QodanaYaml, b: QodanaYaml): Option<Field> {
    var i := FirstDifferenceAt(fields, a, b, 0);
    if i < |fields| then Some(fields[i]) else None
  }

  /** The remediation hint as the Go code builds it: one template with
      the key `ide` fixed in it, filled with the effective value of
      whichever field differs. */
  function WrittenHint(f: Field, effective: QodanaYaml, localPath: string): Message {
    AddDeclaration(Key(Ide), Get(effective, f), localPath)
  }

  /** The hint the message evidently means: the key of the field that differs. */
  function IntendedHint(f: Field, effective: QodanaYaml, localPath: string): Message {
    AddDeclaration(Key(f), Get(effective, f), localPath)
  }

  /** The two messages emitted on a mismatch, with a choice of hint. */
  function Report(f: Field, effective: QodanaYaml, localPath: string, intended: bool): seq<Message> {
    [Mismatched(Key(f), Get(effective, f), localPath),
     if intended then IntendedHint(f, effective, localPath) else WrittenHint(f, effective, localPath)]
  }

  /** The decision shared by both comparisons. */
  function Compare(effective: QodanaYaml, localEchoPath: string, load: string -> QodanaYaml,
                   localPathFromRoot: string, intended: bool): Verdict
  {
    if effective.linter == "" && effective.ide == "" then Verdict(None, [])
    else if localEchoPath == "" then Verdict(None, [])
    else
      var local := load(localEchoPath);
      if effective.ide != local.ide then Verdict(Some(Ide), Report(Ide, effective, localPathFromRoot, intended))
      else if effective.linter != local.linter then Verdict(Some(Linter), Report(Linter, effective, localPathFromRoot, intended))
      else Verdict(None, [])
  }

  /** The comparison as written. `localEchoPath` is the resolver's copy
      of the local yaml ("" when absent), `load` parses a yaml file, and
      `localPathFromRoot` is the path shown in messages. On a mismatch the
      hint always asks for an `ide:` entry, holding the effective value of
      the field that differs. */
  function CompareLayers(effective: QodanaYaml, localEchoPath: string,
                         load: string -> QodanaYaml, localPathFromRoot: string): (v: Verdict)
    ensures Unconstrained(effective) || localEchoPath == "" ==> v == Verdict(None, [])
    ensures !Unconstrained(effective) && localEchoPath != "" ==>
              v.mismatch == FirstDifference(CheckedFields, effective, load(localEchoPath))
    ensures v.mismatch.None? ==> v.messages == []
    ensures v.mismatch.Some? ==>
              v.messages == [Mismatched(Key(v.mismatch.value), Get(effective, v.mismatch.value), localPathFromRoot),
                             AddDeclaration("ide", Get(effective, v.mismatch.value), localPathFromRoot)]
  {
    Compare(effective, localEchoPath, load, localPathFromRoot, false)
  }

  /** The comparison with the hint it evidently means: the hint names the
      key of the field that differs. */
  function CompareLayersIntended(effective: QodanaYaml, localEchoPath: string,
                                 load: string -> QodanaYaml, localPathFromRoot: string): (v: Verdict)
    ensures v.mismatch == CompareLayers(effective, localEchoPath, load, localPathFromRoot).mismatch
    ensures v.mismatch.None? ==> v.messages == []
    ensures v.mismatch.Some? ==> (
              && |v.messages| == 2
              && v.messages[0] == CompareLayers(effective, localEchoPath, load, localPathFromRoot).messages[0]
              && v.messages[1].AddDeclaration?
              && v.messages[1].key == Key(v.mismatch.value)
              && v.messages[1].value == Get(effective, v.mismatch.value)
              && v.messages[1].localPath == localPathFromRoot)
  {
    Compare(effective, localEchoPath, load, localPathFromRoot, true)
  }

  /** The two comparisons return the same error; their hints differ
      exactly when the linter is what differs. */
  lemma HintsDifferOnlyForLinter(effective: QodanaYaml, localEchoPath: string,
                                  load: string -> QodanaYaml, localPathFromRoot: string)
    ensures var w := CompareLayers(effective, localEchoPath, load, localPathFromRoot);
      var c := CompareLayersIntended(effective, localEchoPath, load, localPathFromRoot);
      && w.mismatch == c.mismatch
      && (w.messages != c.messages <==> w.mismatch == Some(Linter))
  {
    var w := CompareLayers(effective, localEchoPath, load, localPathFromRoot);
    var c := CompareLayersIntended(effective, localEchoPath, load, localPathFromRoot);
    if w.mismatch == Some(Linter) {
      assert w.messages[1].key != c.messages[1].key;
    }
  }

  /** On the input of the finding, the written hint asks for an `ide:`
      entry holding the linter's name. */
  lemma WrittenHintMisnamesLinter()
    ensures var v := CompareLayers(QodanaYaml("", "jetbrains/qodana-jvm"), "echo/qodana.yaml",
                                   _ => QodanaYaml("", ""), "qodana.yaml");
      && v.mismatch == Some(Linter)
      && v.messages[1] == AddDeclaration("ide", "jetbrains/qodana-jvm", "qodana.yaml")
      && v.messages[1].key != Key(Linter)
  {
  }

  /** No error exactly when the effective layer is unconstrained, there is
      no local echo, or the two layers agree on both fields. */
  lemma CompareAcceptsIff(effective: QodanaYaml, localEchoPath: string,
                           load: string -> QodanaYaml, localPathFromRoot: string)
    ensures CompareLayers(effective, localEchoPath, load, localPathFromRoot).mismatch.None? <==>
              Unconstrained(effective) || localEchoPath == "" || effective == load(localEchoPath)
  {
    if !Unconstrained(effective) && localEchoPath != "" {
      var local := load(localEchoPath);
      var r := FirstDifference(CheckedFields, effective, local);
      if r.None? {
        assert Get(effective, CheckedFields[0]) == Get(local, CheckedFields[0]);
        assert Get(effective, CheckedFields[1]) == Get(local, CheckedFields[1]);
      }
    }
  }

  /** An IDE mismatch is reported whatever the linters are; a linter
      mismatch only when the IDEs agree. Comparison is exact equality. */
  lemma IdeTakesPrecedence(effective: QodanaYaml, localEchoPath: string,
                            load: string -> QodanaYaml, localPathFromRoot: string)
    requires !Unconstrained(effective) && localEchoPath != ""
    ensures var v := CompareLayers(effective, localEchoPath, load, localPathFromRoot);
      && (v.mismatch == Some(Ide) <==> effective.ide != load(localEchoPath).ide)
      && (v.mismatch == Some(Linter) <==>
            effective.ide == load(localEchoPath).ide && effective.linter != load(localEchoPath).linter)
  {
    var local := load(localEchoPath);
    var i := FirstDifferenceAt(CheckedFields, effective, local, 0);
    assert CheckedFields[0] == Ide && CheckedFields[1] == Linter;
    if effective.ide != local.ide {
      assert i == 0;
    } else if effective.linter != local.linter {
      assert i == 1;
    }
  }
}
