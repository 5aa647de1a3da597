/** The CodePush build patches (plugins/withCodePush.js): the app build file gets the CodePush
    Gradle script, the Kotlin `MainApplication` gets the import and the `getJSBundleFile` override,
    and the string resources get the deployment key. The regular-expression anchors are matched
    as literal text; the language tags come from the build tooling as text. */
module CodePushPlugin {
  import opened Common
  import opened Text

  const CodePushScript: string := "codepush.gradle"
  const CodePushGradleLine: string := "apply from: \"../../node_modules/react-native-code-push/android/" + CodePushScript + "\""
  const ReactPluginLine: string := "apply plugin: \"com.facebook.react\""
  const ReactPluginLineSingleQuoted: string := "apply plugin: 'com.facebook.react'"
  const KotlinPluginLine: string := "apply plugin: \"org.jetbrains.kotlin.android\""

  const ImportLine: string := "import com.microsoft.codepush.react.CodePush"
  const ReactApplicationImport: string := "import com.facebook.react.ReactApplication"
  const BundleFileCall: string := "CodePush.getJSBundleFile()"
  const MainModuleSignature: string := "override fun getJSMainModuleName(): String"
  /** The literal part of `override fun getJSMainModuleName\(\): String = .*`; the rest of that
      line follows it in the match. */
  const MainModuleDefinition: string := MainModuleSignature + " = "
  const OverrideHead: string := "\n          override fun getJSBundleFile(): String {\n            return "
  const OverrideTail: string := "\n          }\n      "
  const OverrideMethod: string := OverrideHead + BundleFileCall + OverrideTail

  /** `contents.replace(anchor, anchor + text)` for a literal anchor: `text` right after the first
      occurrence of `anchor`, or no change when there is none. */
  function InsertAfterFirst(contents: string, anchor: string, text: string): (r: string)
    ensures IndexOf(contents, anchor).None? ==> r == contents
    ensures IndexOf(contents, anchor).Some? ==>
      var k := IndexOf(contents, anchor).value + |anchor|;
      k <= |contents| && r == contents[..k] + text + contents[k..]
  {
    match IndexOf(contents, anchor)
    case None => contents
    case Some(i) => contents[..i + |anchor|] + text + contents[i + |anchor|..]
  }

  /** Text inserted whole is contained in the result, and so is whatever that text contains. */
  lemma InsertedTextContained(contents: string, k: nat, text: string, w: string)
    requires k <= |contents| && Contains(text, w)
    ensures Contains(contents[..k] + text + contents[k..], w)
  {
    ContainsPiece(contents[..k], text, contents[k..]);
    ContainsTransitive(contents[..k] + text + contents[k..], text, w);
  }

  /** Text inserted after an anchor that is present is contained in the result. */
  lemma InsertAfterFirstContains(contents: string, anchor: string, text: string, w: string)
    requires Contains(contents, anchor) && Contains(text, w)
    ensures Contains(InsertAfterFirst(contents, anchor, text), w)
  {
    InsertedTextContained(contents, IndexOf(contents, anchor).value + |anchor|, text, w);
  }

  /** Text put in front is contained in the result. */
  lemma PrependContains(text: string, contents: string, w: string)
    requires Contains(text, w)
    ensures Contains(text + contents, w)
  {
    ContainsPiece([], text, contents);
    assert [] + text + contents == text + contents;
    ContainsTransitive(text + contents, text, w);
  }

  /** The Gradle line names the script the presence check looks for. */
  lemma GradleLineNamesScript()
    ensures Contains(CodePushGradleLine, CodePushScript)
    ensures Contains("\n" + CodePushGradleLine, CodePushScript)
    ensures Contains(CodePushGradleLine + "\n", CodePushScript)
  {
    var prefix := "apply from: \"../../node_modules/react-native-code-push/android/";
    ContainsPiece(prefix, CodePushScript, "\"");
    ContainsPiece("\n" + prefix, CodePushScript, "\"");
    assert "\n" + CodePushGradleLine == "\n" + prefix + CodePushScript + "\"";
    ContainsPiece([], CodePushGradleLine, "\n");
    assert [] + CodePushGradleLine + "\n" == CodePushGradleLine + "\n";
    ContainsTransitive(CodePushGradleLine + "\n", CodePushGradleLine, CodePushScript);
  }

  /** The transform of `withCodePushAndroidBuildGradle`: only Groovy build files without the script
      change; the script line goes after the first React plugin line, else after the single-quoted
      one, else after the Kotlin plugin line, else at the top. */
  function AppBuildGradle(language: string, contents: string): (r: string)
    ensures language != "groovy" || Contains(contents, CodePushScript) ==> r == contents
    ensures language == "groovy" ==> Contains(r, CodePushScript)
    ensures language == "groovy" && !Contains(contents, CodePushScript) ==>
      r == (if Contains(contents, ReactPluginLine) then InsertAfterFirst(contents, ReactPluginLine, "\n" + CodePushGradleLine)
            else if Contains(contents, ReactPluginLineSingleQuoted) then InsertAfterFirst(contents, ReactPluginLineSingleQuoted, "\n" + CodePushGradleLine)
            else if Contains(contents, KotlinPluginLine) then InsertAfterFirst(contents, KotlinPluginLine, "\n" + CodePushGradleLine)
            else CodePushGradleLine + "\n" + contents)
  {
    if language != "groovy" || Contains(contents, CodePushScript) then contents
    else if Contains(contents, ReactPluginLine) then
      GradleLineNamesScript();
      InsertAfterFirstContains(contents, ReactPluginLine, "\n" + CodePushGradleLine, CodePushScript);
      InsertAfterFirst(contents, ReactPluginLine, "\n" + CodePushGradleLine)
    else if Contains(contents, ReactPluginLineSingleQuoted) then
      GradleLineNamesScript();
      InsertAfterFirstContains(contents, ReactPluginLineSingleQuoted, "\n" + CodePushGradleLine, CodePushScript);
      InsertAfterFirst(contents, ReactPluginLineSingleQuoted, "\n" + CodePushGradleLine)
    else if Contains(contents, KotlinPluginLine) then
      GradleLineNamesScript();
      InsertAfterFirstContains(contents, KotlinPluginLine, "\n" + CodePushGradleLine, CodePushScript);
      InsertAfterFirst(contents, KotlinPluginLine, "\n" + CodePushGradleLine)
    else
      GradleLineNamesScript();
      PrependContains(CodePushGradleLine + "\n", contents, CodePushScript);
      CodePushGradleLine + "\n" + contents
  }

  /** Patching a patched build file changes nothing. */
  lemma AppBuildGradleIdempotent(language: string, contents: string)
    ensures AppBuildGradle(language, AppBuildGradle(language, contents)) == AppBuildGradle(language, contents)
  {
  }

  /** The inserted import text contains the import line. */
  lemma ImportTextNamesImport()
    ensures Contains("\n" + ImportLine, ImportLine)
  {
    ContainsPiece("\n", ImportLine, []);
    assert "\n" + ImportLine + [] == "\n" + ImportLine;
  }

  /** The inserted override text contains the bundle-file call. */
  lemma OverrideNamesCall()
    ensures Contains("\n\n" + OverrideMethod, BundleFileCall)
  {
    ContainsPiece("\n\n" + OverrideHead, BundleFileCall, OverrideTail);
    assert "\n\n" + OverrideMethod == "\n\n" + OverrideHead + BundleFileCall + OverrideTail;
  }

  /** The import step: the CodePush import after the `ReactApplication` import, unless present. */
  function WithImport(contents: string): (r: string)
    ensures Contains(contents, ImportLine) ==> r == contents
    ensures !Contains(contents, ImportLine) ==> r == InsertAfterFirst(contents, ReactApplicationImport, "\n" + ImportLine)
    ensures !Contains(contents, ImportLine) && Contains(contents, ReactApplicationImport) ==> Contains(r, ImportLine)
  {
    if Contains(contents, ImportLine) then contents
    else
      if Contains(contents, ReactApplicationImport) then
        ImportTextNamesImport();
        InsertAfterFirstContains(contents, ReactApplicationImport, "\n" + ImportLine, ImportLine);
        InsertAfterFirst(contents, ReactApplicationImport, "\n" + ImportLine)
      else contents
  }

  /** Adding the import to a file that has it, or cannot get it, changes nothing. */
  lemma {:induction false} WithImportIdempotent(contents: string)
    ensures WithImport(WithImport(contents)) == WithImport(contents)
  {
  }

  /** Where the line containing index `j` ends: the first line terminator at or after `j`, or the
      end of the text. */
  function LineEnd(s: string, j: nat): (e: nat)
    requires j <= |s|
    ensures j <= e <= |s| && (e < |s| ==> IsLineTerminator(s[e]))
    ensures forall k :: j <= k < e ==> !IsLineTerminator(s[k])
    decreases |s| - j
  {
    if j == |s| || IsLineTerminator(s[j]) then j else LineEnd(s, j + 1)
  }

  /** Where the line of the first `getJSMainModuleName` definition ends: the first line terminator
      after `... = `, or the end of the text; none without such a definition. */
  function DefinitionLineEnd(contents: string): (e: Option<nat>)
    ensures e.None? <==> IndexOf(contents, MainModuleDefinition).None?
    ensures e.Some? ==> e.value <= |contents| && (e.value < |contents| ==> IsLineTerminator(contents[e.value]))
    ensures e.Some? ==>
      var d := IndexOf(contents, MainModuleDefinition).value + |MainModuleDefinition|;
      d <= e.value && forall k :: d <= k < e.value ==> !IsLineTerminator(contents[k])
  {
    match IndexOf(contents, MainModuleDefinition)
    case None => None
    case Some(i) => Some(LineEnd(contents, i + |MainModuleDefinition|))
  }

  /** The override step: the `getJSBundleFile` override two lines after the end of the first
      `getJSMainModuleName` definition line, unless the call is already there or the signature is
      missing; a signature without ` = ` after it matches nothing and changes nothing. */
  function WithBundleOverride(contents: string): (r: string)
    ensures Contains(contents, BundleFileCall) || !Contains(contents, MainModuleSignature) ==> r == contents
    ensures !Contains(contents, BundleFileCall) && Contains(contents, MainModuleSignature) ==>
      match DefinitionLineEnd(contents)
      case None => r == contents
      case Some(e) => r == contents[..e] + ("\n\n" + OverrideMethod) + contents[e..] && Contains(r, BundleFileCall)
  {
    if Contains(contents, BundleFileCall) || !Contains(contents, MainModuleSignature) then contents
    else match DefinitionLineEnd(contents)
      case None => contents
      case Some(e) =>
        OverrideNamesCall();
        InsertedTextContained(contents, e, "\n\n" + OverrideMethod, BundleFileCall);
        contents[..e] + ("\n\n" + OverrideMethod) + contents[e..]
  }

  /** Adding the override to a file that has it, or cannot get it, changes nothing. */
  lemma WithBundleOverrideIdempotent(contents: string)
    ensures WithBundleOverride(WithBundleOverride(contents)) == WithBundleOverride(contents)
  {
  }

  /** The transform of `withCodePushMainApplication`: both steps for Kotlin, nothing otherwise. */
  function MainApplication(language: string, contents: string): (r: string)
    ensures language != "kotlin" ==> r == contents
    ensures language == "kotlin" ==> r == WithBundleOverride(WithImport(contents))
  {
    if language == "kotlin" then WithBundleOverride(WithImport(contents)) else contents
  }

  /** One string resource: its `name` and `moduleConfig` attributes and its text. */
  datatype StringEntry = StringEntry(name: string, moduleConfig: Option<string>, value: string)

  const DeploymentKeyName: string := "CodePushDeploymentKey"

  /** JavaScript truthiness of an optional string. */
  predicate Truthy(s: Option<string>) {
    s.Some? && s.value != []
  }

  /** How many entries have the given name. */
  function CountNamed(entries: seq<StringEntry>, name: string): nat {
    if entries == [] then 0
    else (if entries[|entries| - 1].name == name then 1 else 0) + CountNamed(entries[..|entries| - 1], name)
  }

  /** `strings.find((s) => s.$.name === name)` finds something exactly when some entry has the name. */
  function HasNamed(entries: seq<StringEntry>, name: string): (r: bool)
    ensures r <==> CountNamed(entries, name) > 0
    ensures r <==> exists k :: 0 <= k < |entries| && entries[k].name == name
  {
    if entries == [] then false
    else
      var init := entries[..|entries| - 1];
      assert forall k :: 0 <= k < |init| ==> init[k] == entries[k];
      entries[|entries| - 1].name == name || HasNamed(init, name)
  }

  /** The string resources of the Android project, which may have no `string` list yet. */
  class StringsResources {
    var strings: Option<seq<StringEntry>>

    constructor (strings: Option<seq<StringEntry>>)
      ensures this.strings == strings
    {
      this.strings := strings;
    }

    /** The entries, `[]` when there is no list. */
    function Entries(): (es: seq<StringEntry>)
      reads this
      ensures strings.Some? ==> es == strings.value
      ensures strings.None? ==> es == []
    {
      if strings.Some? then strings.value else []
    }

    /** The transform of `withCodePushStrings`: with a truthy key and no entry of that name, the key
        entry is appended (creating the list if needed); otherwise nothing changes. The key is never
        there twice unless it already was. */
    method AddDeploymentKey(androidKey: Option<string>)
      modifies this
      ensures !Truthy(androidKey) || HasNamed(old(Entries()), DeploymentKeyName) ==> strings == old(strings)
      ensures Truthy(androidKey) && !HasNamed(old(Entries()), DeploymentKeyName) ==>
        strings == Some(old(Entries()) + [StringEntry(DeploymentKeyName, Some("true"), androidKey.value)])
      ensures CountNamed(Entries(), DeploymentKeyName) ==
        if Truthy(androidKey) && CountNamed(old(Entries()), DeploymentKeyName) == 0 then 1
        else CountNamed(old(Entries()), DeploymentKeyName)
    {
      if Truthy(androidKey) {
        var entries := Entries();
        if !HasNamed(entries, DeploymentKeyName) {
          var added := entries + [StringEntry(DeploymentKeyName, Some("true"), androidKey.value)];
          assert added[..|added| - 1] == entries;
          strings := Some(added);
        }
      }
    }
  }

  /** Running the strings step twice adds the key at most once. */
  method AddDeploymentKeyTwice(resources: StringsResources, androidKey: Option<string>)
    requires CountNamed(resources.Entries(), DeploymentKeyName) <= 1
    modifies resources
    ensures CountNamed(resources.Entries(), DeploymentKeyName) <= 1
  {
    resources.AddDeploymentKey(androidKey);
    resources.AddDeploymentKey(androidKey);
  }
}
