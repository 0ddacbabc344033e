/**
 * The decisions of the common base of the plugin's Java build tasks: where
 * the build JDK lives, how a path is made to end with the file separator,
 * what error message a failed external process yields, how the task
 * configuration is combined with the parent build's data, and what state
 * creating the build-info files leaves behind.
 */
module BaseJavaBuildTask {
  import opened Wrappers
  import opened JavaLibrary

  const JdkLabelKeyPrefix := "system.jdk."
  const JavaHome := "JAVA_HOME"

  // Keys defined by BuildParamsOverrideManager and BuildInfoFields. Those classes are not
  // part of this model: these are stand-in values, and the proofs use only that the two
  // override keys differ.
  const ShouldOverrideJdkKey := "shouldOverrideJdk"
  const OverrideJdkEnvVarKey := "overrideJdkEnvVar"
  const GeneratedBuildInfoKey := "buildInfo.generated.build.info"

  const TaskExceptionMessage := "Failed to create Build Info properties file."

  // ---------------------------------------------------------------------
  // Paths
  // ---------------------------------------------------------------------

  /**
   * `getPathBuilder`: the base path, with the file separator appended
   * unless the base path already ends with it.
   */
  function GetPathBuilder(basePath: string, fileSeparator: string): (r: string)
    ensures StartsWith(r, basePath)
    ensures EndsWith(r, fileSeparator)
    ensures EndsWith(basePath, fileSeparator) ==> r == basePath
    ensures !EndsWith(basePath, fileSeparator) ==> r == basePath + fileSeparator
  {
    var r := if EndsWith(basePath, fileSeparator) then basePath else basePath + fileSeparator;
    assert r[..|basePath|] == basePath;
    assert r[|r| - |fileSeparator|..] == fileSeparator;
    r
  }

  /** A path that already ends with the separator is kept, so a second application changes nothing. */
  lemma GetPathBuilderIdempotent(basePath: string, fileSeparator: string)
    ensures GetPathBuilder(GetPathBuilder(basePath, fileSeparator), fileSeparator) == GetPathBuilder(basePath, fileSeparator)
  {
  }

  /**
   * `getCanonicalPath`: a path without a space is returned as it is; one
   * with a space is what the file system resolves it to (given here as
   * `resolved`), and a failed resolution is an error naming the path.
   */
  function GetCanonicalPath(path: string, resolved: Result<string, string>): (r: Result<string, string>)
    ensures !Contains(path, " ") ==> r == Ok(path)
    ensures Contains(path, " ") && resolved.Ok? ==> r == resolved
    ensures r.Err? <==> Contains(path, " ") && resolved.Err?
    ensures r.Err? ==> r.error == "IO Exception trying to get canonical path of item: " + path
  {
    if Contains(path, " ") then
      match resolved
      case Ok(canonical) => Ok(canonical)
      case Err(_) => Err("IO Exception trying to get canonical path of item: " + path)
    else Ok(path)
  }

  // ---------------------------------------------------------------------
  // The build JDK
  // ---------------------------------------------------------------------

  /** `shouldOverrideJdk`: the override variable says "true", in any case. */
  predicate ShouldOverrideJdk(overrides: map<string, string>) {
    ParseBoolean(Lookup(overrides, ShouldOverrideJdkKey))
  }

  /** The environment variable that holds the JDK in override mode: the configured one, or JAVA_HOME. */
  function JdkEnvVarName(overrides: map<string, string>): (name: string)
    ensures IsEmpty(Lookup(overrides, OverrideJdkEnvVarKey)) ==> name == JavaHome
    ensures !IsEmpty(Lookup(overrides, OverrideJdkEnvVarKey)) ==> name == overrides[OverrideJdkEnvVarKey] && name != ""
  {
    var configured := Lookup(overrides, OverrideJdkEnvVarKey);
    if IsEmpty(configured) then JavaHome else configured.value
  }

  /** The error raised when the override names an undefined environment variable. */
  function UndefinedJdkVariable(name: string): string {
    "The task is configured to use the '" + name
      + "' environment variable for the build JDK, but this environment variable is not defined."
  }

  /**
   * `getConfiguredJdkPath`. `capabilities` is the agent's capability set
   * (null when there is none); a capability maps to its value, which may be
   * null. `jdkLabel` is the build context's JDK label.
   *
   * The source reads two override managers: `shouldOverrideJdk` asks the
   * task's own field, and the variable name comes from the method's
   * parameter of the same name. The model takes both from the one map
   * `overrides`, so it assumes the two managers agree on these keys.
   */
  function GetConfiguredJdkPath(overrides: map<string, string>, environmentVariables: map<string, string>,
                                jdkLabel: Option<string>, capabilities: Option<map<string, Option<string>>>,
                                fileSeparator: string): (r: Result<Option<string>, string>)
    // Override mode: the named variable, or an error when it is undefined.
    ensures ShouldOverrideJdk(overrides) ==>
      var name := JdkEnvVarName(overrides);
      && (r.Err? <==> name !in environmentVariables)
      && (r.Err? ==> r.error == UndefinedJdkVariable(name))
      && (r.Ok? ==> r.value == Some(GetPathBuilder(environmentVariables[name], fileSeparator)))
    // Capability mode: never an error; null unless the capability has a non-blank value.
    ensures !ShouldOverrideJdk(overrides) ==>
      var key := JdkLabelKeyPrefix + ToJavaString(jdkLabel);
      && r.Ok?
      && (r.value.None? <==> capabilities.None? || key !in capabilities.value || IsBlank(capabilities.value[key]))
      && (r.value.Some? ==> r.value.value == GetPathBuilder(capabilities.value[key].value, fileSeparator))
    // Any path found ends with the file separator.
    ensures r.Ok? && r.value.Some? ==> EndsWith(r.value.value, fileSeparator)
  {
    if ShouldOverrideJdk(overrides) then
      var name := JdkEnvVarName(overrides);
      if name !in environmentVariables then Err(UndefinedJdkVariable(name))
      else Ok(Some(GetPathBuilder(environmentVariables[name], fileSeparator)))
    else
      var key := JdkLabelKeyPrefix + ToJavaString(jdkLabel);
      if capabilities.None? then Ok(None)
      else if key !in capabilities.value then Ok(None)
      else
        var jdkHome := capabilities.value[key];
        if IsBlank(jdkHome) then Ok(None)
        else Ok(Some(GetPathBuilder(jdkHome.value, fileSeparator)))
  }

  // ---------------------------------------------------------------------
  // Error message of an external process
  // ---------------------------------------------------------------------

  /** The exception a process handler recorded: its `getMessage()` (possibly null) and its `toString()`. */
  datatype ProcessException = ProcessException(message: Option<string>, description: string)

  function ExceptionSegment(commandLine: string, exception: ProcessException): string {
    "Exception executing command \"" + commandLine + " \n"
      + ToJavaString(exception.message) + "\n" + exception.description + "\n"
  }

  function ReasonSegment(commandLine: string, reason: string): string {
    "Error executing command \"" + commandLine + "\": " + reason
  }

  /** The error output is worth reporting: present and not empty once trimmed. */
  predicate HasReason(errorOutput: Option<string>) {
    errorOutput.Some? && |Trim(errorOutput.value)| > 0
  }

  /**
   * `getErrorMessage`. `errorOutput` is the output of the handler's string
   * error handler, null when the handler has none.
   */
  function GetErrorMessage(commandLine: string, exception: Option<ProcessException>, errorOutput: Option<string>)
    : (message: string)
    ensures message == "" <==> exception.None? && !HasReason(errorOutput)
    ensures exception.Some? ==> StartsWith(message, ExceptionSegment(commandLine, exception.value))
    ensures exception.None? && HasReason(errorOutput) ==> message == ReasonSegment(commandLine, errorOutput.value)
    ensures HasReason(errorOutput) ==> EndsWith(message, ReasonSegment(commandLine, errorOutput.value))
    ensures !HasReason(errorOutput) && exception.Some? ==> message == ExceptionSegment(commandLine, exception.value)
    ensures exception.Some? && HasReason(errorOutput) ==>
      message == ExceptionSegment(commandLine, exception.value) + ReasonSegment(commandLine, errorOutput.value)
  {
    var head := if exception.Some? then ExceptionSegment(commandLine, exception.value) else "";
    var tail := if HasReason(errorOutput) then ReasonSegment(commandLine, errorOutput.value) else "";
    var message := head + tail;
    assert message[..|head|] == head;
    assert message[|message| - |tail|..] == tail;
    message
  }

  /** The error output is reported exactly when it has a character above U+0020. */
  lemma ReasonReportedIff(commandLine: string, errorOutput: string)
    ensures GetErrorMessage(commandLine, None, Some(errorOutput)) != ""
            <==> exists i :: 0 <= i < |errorOutput| && errorOutput[i] > ' '
  {
  }

  // ---------------------------------------------------------------------
  // Configuration and build-info state
  // ---------------------------------------------------------------------

  /**
   * `getCombinedConfiguration`: the task's configuration, overlaid with the
   * parent build's custom data when there is a parent build.
   */
  method GetCombinedConfiguration(configuration: map<string, string>, parentCustomBuildData: Option<map<string, string>>)
    returns (combined: map<string, string>)
    ensures parentCustomBuildData.None? ==> combined == configuration
    ensures parentCustomBuildData.Some? ==> combined.Keys == configuration.Keys + parentCustomBuildData.value.Keys
    ensures parentCustomBuildData.Some? ==>
      forall k :: k in parentCustomBuildData.value ==> combined[k] == parentCustomBuildData.value[k]
    ensures forall k :: k in configuration && (parentCustomBuildData.None? || k !in parentCustomBuildData.value)
                        ==> k in combined && combined[k] == configuration[k]
  {
    combined := map[];
    combined := combined + configuration;
    if parentCustomBuildData.Some? {
      combined := combined + parentCustomBuildData.value;
    }
  }

  /** The state `createBuildInfoFiles` updates. */
  class BuildTask {
    var environmentVariables: map<string, string>
    var buildInfoPropertiesFile: Option<string>
    var activateBuildInfoRecording: bool

    constructor (environmentVariables: map<string, string>)
      ensures this.environmentVariables == environmentVariables
      ensures buildInfoPropertiesFile.None? && !activateBuildInfoRecording
    {
      this.environmentVariables := environmentVariables;
      buildInfoPropertiesFile := None;
      activateBuildInfoRecording := false;
    }

    /**
     * `createBuildInfoFiles`. The data helper's file creation is given by
     * its outcomes: `jsonFile` is the path of the build-info JSON file or
     * the I/O error, `propsFile` the path of the properties file (possibly
     * null) or the I/O error.
     */
    method CreateBuildInfoFiles(shouldCaptureBuildInfo: bool, jsonFile: Result<string, string>,
                                propsFile: Result<Option<string>, string>)
      returns (outcome: Outcome<string>)
      modifies this
      // The JSON file is created, and its path exported, only when capture is requested.
      ensures environmentVariables ==
        if shouldCaptureBuildInfo && jsonFile.Ok? then old(environmentVariables)[GeneratedBuildInfoKey := jsonFile.value]
        else old(environmentVariables)
      // An I/O error becomes the task exception and leaves the remaining state alone.
      ensures outcome.Fail? <==> (shouldCaptureBuildInfo && jsonFile.Err?) || propsFile.Err?
      ensures outcome.Fail? ==> outcome.error == TaskExceptionMessage
      ensures outcome.Fail? ==> buildInfoPropertiesFile == old(buildInfoPropertiesFile)
                                && activateBuildInfoRecording == old(activateBuildInfoRecording)
      // Otherwise the properties file is recorded, and a non-blank one switches recording on.
      ensures outcome.Pass? ==> buildInfoPropertiesFile == propsFile.value
      ensures outcome.Pass? ==>
        activateBuildInfoRecording == (old(activateBuildInfoRecording) || !IsBlank(propsFile.value))
      // Recording is never switched off.
      ensures old(activateBuildInfoRecording) ==> activateBuildInfoRecording
    {
      if shouldCaptureBuildInfo {
        match jsonFile {
          case Err(_) =>
            return Fail(TaskExceptionMessage);
          case Ok(buildInfoJsonPath) =>
            environmentVariables := environmentVariables[GeneratedBuildInfoKey := buildInfoJsonPath];
        }
      }
      match propsFile {
        case Err(_) =>
          return Fail(TaskExceptionMessage);
        case Ok(path) =>
          buildInfoPropertiesFile := path;
      }
      if !IsBlank(buildInfoPropertiesFile) {
        activateBuildInfoRecording := true;
      }
      return Pass;
    }
  }
}
