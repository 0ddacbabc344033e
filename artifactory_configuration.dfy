/**
 * The decisions the base task configurator of the Artifactory plugin makes
 * over the host's task configuration and UI context maps: which credential
 * fields are encrypted for the UI and decrypted back, which defaults and
 * legacy flags are written into the context, which requirements are asked
 * for, which test directory is used and how the uploaded SSH key is kept.
 */
module ArtifactoryConfiguration {
  import opened Wrappers
  import opened JavaLibrary

  // ---------------------------------------------------------------------
  // Host maps
  // ---------------------------------------------------------------------

  /** A `java.util.Map<String, V>` that the host hands over and the plugin rewrites in place. */
  class JavaMap<V> {
    var entries: map<string, V>

    constructor (initial: map<string, V>)
      ensures entries == initial
    {
      entries := initial;
    }
  }

  /** A value of the UI context `Map<String, Object>`. */
  datatype ContextValue =
    | Null
    | Text(text: string)
    | Flag(flag: bool)
    | HostObject(description: string)

  /** `context.get(key) == null`: the key is absent or mapped to null. */
  predicate IsNullAt(m: map<string, ContextValue>, key: string) {
    key !in m || m[key].Null?
  }

  /** `(String) context.get(key)` throws: the key holds something other than a string. */
  predicate CastFails(m: map<string, ContextValue>, key: string) {
    key in m && !(m[key].Null? || m[key].Text?)
  }

  const ClassCastException := "java.lang.ClassCastException"

  // Keys and defaults defined by PackageManagersContext, ArtifactoryBuildContext and
  // TaskConfigConstants. Those classes are not part of this model: these are stand-in
  // values, and the proofs use only that the keys are pairwise distinct.
  const BuildInfoAggregationKey := "buildInfoAggregation"
  const CaptureBuildInfoKey := "captureBuildInfo"
  const PublishBuildInfoKey := "publishBuildInfo"
  const EnvVarsExcludePatternsKey := "envVarsExcludePatterns"
  const DefaultEnvVarsToExclude := "*password*,*secret*,*key*,*token*"
  const BuildNameKey := "buildName"
  const DefaultBuildName := "${bamboo.buildPlanName}"
  const BuildNumberKey := "buildNumber"
  const DefaultBuildNumber := "${bamboo.buildNumber}"
  const JdkLabelSuffix := "buildJdk"
  const ExecutableSuffix := "executable"
  // The source builds this key from two constants whose values are not part of this model.
  // Whether `shouldEncrypt` also selects the stored SSH key is therefore left open: no
  // lemma relies on this stand-in being selected or not.
  const SshFileKey := "vcs.git.ssh.key"

  const StandardTestDirectoryOption := "standardTestDirectory"
  const CustomTestDirectoryOption := "customTestDirectory"

  // ---------------------------------------------------------------------
  // Credential-field masking
  // ---------------------------------------------------------------------

  /**
   * The plugin's encryption helper: `encryptForUi` and `decryptIfNeeded`.
   * Its cryptography is not modelled; the lemmas below state what they
   * assume of it.
   */
  datatype Cipher = Cipher(encryptForUi: string -> string, decryptIfNeeded: string -> string)

  /** Decrypting what was encrypted for the UI gives the plain text back. */
  ghost predicate RoundTrips(c: Cipher) {
    forall x :: c.decryptIfNeeded(c.encryptForUi(x)) == x
  }

  /** `isEncrypted`: decrypting the value changes it. */
  predicate IsEncrypted(c: Cipher, value: string) {
    c.decryptIfNeeded(value) != value
  }

  /** `shouldEncrypt`, applied to a lower-cased key. */
  predicate ShouldEncrypt(key: string) {
    Contains(key, "artifactory") && (Contains(key, "password") || Contains(key, "ssh"))
  }

  /** The masking loop touches an entry exactly when its lower-cased key is selected. */
  predicate IsCredentialKey(key: string) {
    ShouldEncrypt(ToLowerCase(key))
  }

  /** The new value of one selected entry: decrypted if it was encrypted, then encrypted when `enc`. */
  function MaskedValue(c: Cipher, value: string, enc: bool): string {
    var plain := if IsEncrypted(c, value) then c.decryptIfNeeded(value) else value;
    if enc then c.encryptForUi(plain) else plain
  }

  /** The configuration map after `encOrDecFields(m, enc)`. */
  function Masked(c: Cipher, m: map<string, string>, enc: bool): (r: map<string, string>)
    ensures r.Keys == m.Keys
    ensures forall k :: k in m && !IsCredentialKey(k) ==> r[k] == m[k]
    ensures forall k :: k in m && IsCredentialKey(k) ==> r[k] == MaskedValue(c, m[k], enc)
  {
    map k | k in m :: if IsCredentialKey(k) then MaskedValue(c, m[k], enc) else m[k]
  }

  /**
   * `encOrDecFields`: rewrites every credential entry of the map in place,
   * one entry at a time, and leaves every other entry as it was.
   */
  method EncOrDecFields(c: Cipher, taskConfigMap: JavaMap<string>, enc: bool)
    modifies taskConfigMap
    ensures taskConfigMap.entries == Masked(c, old(taskConfigMap.entries), enc)
  {
    ghost var original := taskConfigMap.entries;
    var pending := taskConfigMap.entries.Keys;
    while pending != {}
      invariant pending <= original.Keys
      invariant taskConfigMap.entries.Keys == original.Keys
      invariant forall k :: k in pending ==> taskConfigMap.entries[k] == original[k]
      invariant forall k :: k in original && k !in pending ==>
        taskConfigMap.entries[k] == if IsCredentialKey(k) then MaskedValue(c, original[k], enc) else original[k]
      decreases pending
    {
      var entryKey :| entryKey in pending;
      var key := ToLowerCase(entryKey);
      if ShouldEncrypt(key) {
        var value := taskConfigMap.entries[entryKey];
        if IsEncrypted(c, value) {
          value := c.decryptIfNeeded(value);
        }
        if enc {
          value := c.encryptForUi(value);
        }
        taskConfigMap.entries := taskConfigMap.entries[entryKey := value];
      }
      pending := pending - {entryKey};
    }
    assert forall k | k in original :: taskConfigMap.entries[k] == Masked(c, original, enc)[k];
  }

  /** `encryptFields` */
  method EncryptFields(c: Cipher, taskConfigMap: JavaMap<string>)
    modifies taskConfigMap
    ensures taskConfigMap.entries == Masked(c, old(taskConfigMap.entries), true)
  {
    EncOrDecFields(c, taskConfigMap, true);
  }

  /** `decryptFields` */
  method DecryptFields(c: Cipher, taskConfigMap: JavaMap<string>)
    modifies taskConfigMap
    ensures taskConfigMap.entries == Masked(c, old(taskConfigMap.entries), false)
  {
    EncOrDecFields(c, taskConfigMap, false);
  }

  /**
   * The `isEncrypted` test never changes what is stored: a selected value
   * becomes its decryption, or the encryption of its decryption.
   */
  lemma MaskedValueIsDecryptThenEncrypt(c: Cipher, value: string, enc: bool)
    ensures !enc ==> MaskedValue(c, value, enc) == c.decryptIfNeeded(value)
    ensures enc ==> MaskedValue(c, value, enc) == c.encryptForUi(c.decryptIfNeeded(value))
  {
  }

  /** Decrypting a map whose credential values are all plain changes nothing. */
  lemma DecryptKeepsPlainValues(c: Cipher, m: map<string, string>)
    requires forall k :: k in m && IsCredentialKey(k) ==> !IsEncrypted(c, m[k])
    ensures Masked(c, m, false) == m
  {
  }

  /** Decrypting twice is decrypting once exactly when every credential decrypts to a plain value. */
  lemma DecryptIdempotent(c: Cipher, m: map<string, string>)
    ensures Masked(c, Masked(c, m, false), false) == Masked(c, m, false)
            <==> forall k :: k in m && IsCredentialKey(k) ==> !IsEncrypted(c, c.decryptIfNeeded(m[k]))
  {
    if Masked(c, Masked(c, m, false), false) == Masked(c, m, false) {
      forall k | k in m && IsCredentialKey(k)
        ensures !IsEncrypted(c, c.decryptIfNeeded(m[k]))
      {
        assert Masked(c, Masked(c, m, false), false)[k] == Masked(c, m, false)[k];
      }
    }
  }

  /**
   * Without that condition decrypting is not idempotent, even for a cipher
   * that round-trips: a credential encrypted twice loses one layer per
   * decryption.
   */
  lemma DecryptTwiceUnwrapsTwice(c: Cipher, key: string, x: string)
    requires RoundTrips(c) && IsCredentialKey(key) && c.encryptForUi(x) != x
    ensures var m := map[key := c.encryptForUi(c.encryptForUi(x))];
            Masked(c, m, false)[key] == c.encryptForUi(x)
            && Masked(c, Masked(c, m, false), false)[key] == x
            && Masked(c, Masked(c, m, false), false) != Masked(c, m, false)
  {
    var m := map[key := c.encryptForUi(c.encryptForUi(x))];
    assert Masked(c, m, false)[key] == c.encryptForUi(x);
    assert Masked(c, Masked(c, m, false), false)[key] == x;
  }

  /**
   * A value that `encryptForUi` produced is not encrypted again. (A value
   * `isEncrypted` accepts for another reason is re-encrypted for the UI.)
   */
  lemma EncryptKeepsCipherText(c: Cipher, plain: string)
    requires RoundTrips(c)
    ensures MaskedValue(c, c.encryptForUi(plain), true) == c.encryptForUi(plain)
  {
  }

  /** Encrypting twice is encrypting once. */
  lemma EncryptIdempotent(c: Cipher, m: map<string, string>)
    requires RoundTrips(c)
    ensures Masked(c, Masked(c, m, true), true) == Masked(c, m, true)
  {
  }

  /** Encrypting and then decrypting leaves every credential equal to its decrypted original. */
  lemma EncryptThenDecrypt(c: Cipher, m: map<string, string>)
    requires RoundTrips(c)
    ensures Masked(c, Masked(c, m, true), false) == Masked(c, m, false)
  {
  }

  /** Case does not matter: a key is selected exactly when its lower-cased form is. */
  lemma SelectionIgnoresCase(key: string)
    ensures IsCredentialKey(key) == IsCredentialKey(ToLowerCase(key))
  {
    ToLowerCaseIdempotent(key);
  }

  /** A word whose first character never occurs in `s` is not contained in `s`. */
  lemma AbsentFirstChar(s: string, word: string)
    requires |word| > 0 && forall i :: 0 <= i < |s| ==> s[i] != word[0]
    ensures !Contains(s, word)
  {
    forall i | 0 <= i <= |s| - |word|
      ensures !OccursAt(s, word, i)
    {
      assert s[i..i + |word|][0] == s[i];
    }
  }

  /**
   * A key is selected exactly when, ignoring case, it contains "artifactory"
   * and contains "password" or "ssh".
   */
  lemma CredentialKeyIff(key: string)
    ensures IsCredentialKey(key) <==>
      ContainsIgnoringCase(key, "artifactory")
      && (ContainsIgnoringCase(key, "password") || ContainsIgnoringCase(key, "ssh"))
  {
    ContainsLowerCaseIff(key, "artifactory");
    ContainsLowerCaseIff(key, "password");
    ContainsLowerCaseIff(key, "ssh");
  }

  /**
   * The keys are matched on containment: a key with "ssh" in the middle is
   * selected though it does not end with "password", and a key with
   * neither word is not.
   */
  lemma SelectionIsByContainment()
    ensures ShouldEncrypt("artifactory.ssh.key.file")
    ensures !EndsWith("artifactory.ssh.key.file", "password")
    ensures !ShouldEncrypt("artifactory.url")
  {
    var ssh := "artifactory.ssh.key.file";
    assert OccursAt(ssh, "artifactory", 0);
    assert OccursAt(ssh, "ssh", 12);
    var url := "artifactory.url";
    AbsentFirstChar(url, "password");
    AbsentFirstChar(url, "ssh");
  }

  /**
   * `populateContextWithConfiguration`: the credential fields are encrypted,
   * the listed fields are copied into the UI context (null for a field the
   * configuration lacks), and the credential fields are decrypted back.
   */
  method PopulateContextWithConfiguration(c: Cipher, context: JavaMap<ContextValue>,
                                          taskConfiguration: JavaMap<string>, fieldsToCopy: set<string>)
    modifies context, taskConfiguration
    ensures taskConfiguration.entries == Masked(c, Masked(c, old(taskConfiguration.entries), true), false)
    ensures RoundTrips(c) ==> taskConfiguration.entries == Masked(c, old(taskConfiguration.entries), false)
    ensures context.entries == old(context.entries) + CopiedFields(Masked(c, old(taskConfiguration.entries), true), fieldsToCopy)
  {
    EncryptFields(c, taskConfiguration);
    context.entries := context.entries + CopiedFields(taskConfiguration.entries, fieldsToCopy);
    DecryptFields(c, taskConfiguration);
    if RoundTrips(c) {
      EncryptThenDecrypt(c, old(taskConfiguration.entries));
    }
  }

  /** What the configurator helper copies into the context: each listed field's value, null when absent. */
  function CopiedFields(configuration: map<string, string>, fieldsToCopy: set<string>): (r: map<string, ContextValue>)
    ensures r.Keys == fieldsToCopy
    ensures forall k :: k in fieldsToCopy && k in configuration ==> r[k] == Text(configuration[k])
    ensures forall k :: k in fieldsToCopy && k !in configuration ==> r[k] == Null
  {
    map k | k in fieldsToCopy :: if k in configuration then Text(configuration[k]) else Null
  }

  /** Encrypting for the UI changes every value: no plain text is its own encryption. */
  ghost predicate EncryptionHides(c: Cipher) {
    forall x :: c.encryptForUi(x) != x
  }

  /**
   * What the UI sees of a credential field is the encryption of its plain
   * text; when encryption changes every value, never that plain text itself.
   */
  lemma ContextShowsEncryptedCredentials(c: Cipher, configuration: map<string, string>, fieldsToCopy: set<string>, k: string)
    requires k in fieldsToCopy && k in configuration && IsCredentialKey(k)
    ensures CopiedFields(Masked(c, configuration, true), fieldsToCopy)[k]
            == Text(c.encryptForUi(c.decryptIfNeeded(configuration[k])))
    ensures EncryptionHides(c) ==>
      CopiedFields(Masked(c, configuration, true), fieldsToCopy)[k] != Text(c.decryptIfNeeded(configuration[k]))
  {
  }

  // ---------------------------------------------------------------------
  // Test directory, legacy flags and context defaults
  // ---------------------------------------------------------------------

  /**
   * `getTestDirectory`: the default directory (which the subclass supplies,
   * or fails to) for the standard option, the context's own directory for
   * the custom option, and null for any other option.
   */
  function GetTestDirectory(directoryOption: Option<string>, customDirectory: Option<string>,
                            defaultDirectory: Result<Option<string>, string>): (r: Result<Option<string>, string>)
    ensures directoryOption == Some(StandardTestDirectoryOption) ==> r == defaultDirectory
    ensures directoryOption == Some(CustomTestDirectoryOption) ==> r == Ok(customDirectory)
    ensures directoryOption != Some(StandardTestDirectoryOption) && directoryOption != Some(CustomTestDirectoryOption)
            ==> r == Ok(None)
    ensures r.Err? ==> directoryOption == Some(StandardTestDirectoryOption)
  {
    if directoryOption == Some(StandardTestDirectoryOption) then defaultDirectory
    else if directoryOption == Some(CustomTestDirectoryOption) then Ok(customDirectory)
    else Ok(None)
  }

  /** `getDefaultTestDirectory` of the base class: always throws. */
  function BaseDefaultTestDirectory(className: string): (r: Result<Option<string>, string>)
    ensures r.Err?
  {
    Err("This method is not implemented for class " + className)
  }

  /** A task created before build-info aggregation: its configuration does not say "true" for it. */
  predicate IsLegacyTask(taskConfiguration: map<string, string>) {
    !ParseBoolean(Lookup(taskConfiguration, BuildInfoAggregationKey))
  }

  /** `v` is "true" in some letter case: four characters that fold to "true" one by one. */
  predicate SpellsTrueIgnoringCase(v: string) {
    |v| == 4 && forall i :: 0 <= i < 4 ==> LowerChar(v[i]) == "true"[i]
  }

  /**
   * Tasks without the aggregation key are legacy tasks; with the key, a task
   * is legacy exactly when its value is not "true" in any letter case.
   */
  lemma LegacyTaskIff(taskConfiguration: map<string, string>)
    ensures BuildInfoAggregationKey !in taskConfiguration ==> IsLegacyTask(taskConfiguration)
    ensures BuildInfoAggregationKey in taskConfiguration ==>
      (IsLegacyTask(taskConfiguration) <==> !SpellsTrueIgnoringCase(taskConfiguration[BuildInfoAggregationKey]))
    ensures BuildInfoAggregationKey in taskConfiguration && |taskConfiguration[BuildInfoAggregationKey]| != 4
            ==> IsLegacyTask(taskConfiguration)
  {
    if BuildInfoAggregationKey in taskConfiguration {
      var v := taskConfiguration[BuildInfoAggregationKey];
      if SpellsTrueIgnoringCase(v) {
        assert ToLowerCase(v) == "true";
      }
    }
  }

  /**
   * `populateLegacyContextForEdit`: a legacy task gets capture off and
   * publish on; any other task's context is left as it is.
   */
  method PopulateLegacyContextForEdit(context: JavaMap<ContextValue>, taskConfiguration: map<string, string>)
    modifies context
    ensures IsLegacyTask(taskConfiguration) ==>
      context.entries == old(context.entries)[CaptureBuildInfoKey := Flag(false)][PublishBuildInfoKey := Flag(true)]
    ensures !IsLegacyTask(taskConfiguration) ==> context.entries == old(context.entries)
  {
    if !ParseBoolean(Lookup(taskConfiguration, BuildInfoAggregationKey)) {
      context.entries := context.entries[CaptureBuildInfoKey := Flag(false)];
      context.entries := context.entries[PublishBuildInfoKey := Flag(true)];
    }
  }

  /** `populateLegacyContextForCreate`: a new task aggregates and captures build info and does not publish it. */
  method PopulateLegacyContextForCreate(context: JavaMap<ContextValue>)
    modifies context
    ensures context.entries == old(context.entries)[BuildInfoAggregationKey := Flag(true)]
                                 [CaptureBuildInfoKey := Flag(true)][PublishBuildInfoKey := Flag(false)]
  {
    context.entries := context.entries[BuildInfoAggregationKey := Flag(true)];
    context.entries := context.entries[CaptureBuildInfoKey := Flag(true)];
    context.entries := context.entries[PublishBuildInfoKey := Flag(false)];
  }

  /** The context after writing `default` under `key` when the key is absent or null. */
  function WithDefault(m: map<string, ContextValue>, key: string, default: string): (r: map<string, ContextValue>)
    ensures r.Keys == m.Keys + {key}
    ensures key in r && !r[key].Null?
    ensures IsNullAt(m, key) ==> r[key] == Text(default)
    ensures !IsNullAt(m, key) ==> r[key] == m[key]
    ensures forall k :: k in m && k != key ==> r[k] == m[k]
  {
    if IsNullAt(m, key) then m[key := Text(default)] else m
  }

  /** Writing a default a second time changes nothing. */
  lemma WithDefaultIdempotent(m: map<string, ContextValue>, key: string, default: string)
    ensures WithDefault(WithDefault(m, key, default), key, default) == WithDefault(m, key, default)
  {
  }

  /** Defaults for two different keys do not interfere: their order does not matter. */
  lemma WithDefaultsCommute(m: map<string, ContextValue>, k1: string, d1: string, k2: string, d2: string)
    requires k1 != k2
    ensures WithDefault(WithDefault(m, k1, d1), k2, d2) == WithDefault(WithDefault(m, k2, d2), k1, d1)
  {
  }

  /** `populateDefaultEnvVarsExcludePatternsInBuildContext` */
  method PopulateDefaultEnvVarsExcludePatternsInBuildContext(context: JavaMap<ContextValue>)
    returns (outcome: Outcome<string>)
    modifies context
    ensures CastFails(old(context.entries), EnvVarsExcludePatternsKey) ==>
      outcome == Fail(ClassCastException) && context.entries == old(context.entries)
    ensures !CastFails(old(context.entries), EnvVarsExcludePatternsKey) ==>
      outcome == Pass && context.entries == WithDefault(old(context.entries), EnvVarsExcludePatternsKey, DefaultEnvVarsToExclude)
  {
    if CastFails(context.entries, EnvVarsExcludePatternsKey) {
      return Fail(ClassCastException);
    }
    if IsNullAt(context.entries, EnvVarsExcludePatternsKey) {
      context.entries := context.entries[EnvVarsExcludePatternsKey := Text(DefaultEnvVarsToExclude)];
    }
    return Pass;
  }

  /** `populateDefaultBuildNameNumberInBuildContext`: the build name first, then the build number. */
  method PopulateDefaultBuildNameNumberInBuildContext(context: JavaMap<ContextValue>)
    returns (outcome: Outcome<string>)
    modifies context
    ensures CastFails(old(context.entries), BuildNameKey) ==>
      outcome == Fail(ClassCastException) && context.entries == old(context.entries)
    ensures !CastFails(old(context.entries), BuildNameKey) && CastFails(old(context.entries), BuildNumberKey) ==>
      outcome == Fail(ClassCastException)
      && context.entries == WithDefault(old(context.entries), BuildNameKey, DefaultBuildName)
    ensures !CastFails(old(context.entries), BuildNameKey) && !CastFails(old(context.entries), BuildNumberKey) ==>
      outcome == Pass
      && context.entries == WithDefault(WithDefault(old(context.entries), BuildNameKey, DefaultBuildName),
                                        BuildNumberKey, DefaultBuildNumber)
  {
    if CastFails(context.entries, BuildNameKey) {
      return Fail(ClassCastException);
    }
    if IsNullAt(context.entries, BuildNameKey) {
      context.entries := context.entries[BuildNameKey := Text(DefaultBuildName)];
    }
    if CastFails(context.entries, BuildNumberKey) {
      return Fail(ClassCastException);
    }
    if IsNullAt(context.entries, BuildNumberKey) {
      context.entries := context.entries[BuildNumberKey := Text(DefaultBuildNumber)];
    }
    return Pass;
  }

  /** A second call of the build name and number defaults changes nothing. */
  lemma BuildNameNumberDefaultsSettle(m: map<string, ContextValue>)
    ensures var once := WithDefault(WithDefault(m, BuildNameKey, DefaultBuildName), BuildNumberKey, DefaultBuildNumber);
            WithDefault(WithDefault(once, BuildNameKey, DefaultBuildName), BuildNumberKey, DefaultBuildNumber) == once
  {
  }

  // ---------------------------------------------------------------------
  // Requirements, server resets and the uploaded SSH key
  // ---------------------------------------------------------------------

  /** A call `calculateRequirements` makes on the configurator helper. */
  datatype RequirementCall =
    | JdkRequirement(jdkLabelKey: string)
    | SystemRequirement(executableKey: string, capabilityPrefix: string)

  /**
   * `calculateRequirements`: nothing without a builder prefix; with one, a
   * JDK requirement, and a system requirement when there is also a
   * capability prefix.
   */
  function CalculateRequirements(builderContextPrefix: Option<string>, capabilityPrefix: Option<string>)
    : (calls: seq<RequirementCall>)
    ensures IsBlank(builderContextPrefix) ==> calls == []
    ensures !IsBlank(builderContextPrefix) ==>
      |calls| >= 1 && calls[0] == JdkRequirement(builderContextPrefix.value + JdkLabelSuffix)
    // Exactly one JDK call and at most one system call.
    ensures |calls| == if IsBlank(builderContextPrefix) then 0 else if IsBlank(capabilityPrefix) then 1 else 2
    ensures (exists i :: 0 <= i < |calls| && calls[i].SystemRequirement?)
            <==> !IsBlank(builderContextPrefix) && !IsBlank(capabilityPrefix)
    ensures forall i :: 0 <= i < |calls| && calls[i].SystemRequirement? ==>
      calls[i] == SystemRequirement(builderContextPrefix.value + ExecutableSuffix, capabilityPrefix.value)
  {
    if IsBlank(builderContextPrefix) then []
    else
      var jdk := [JdkRequirement(builderContextPrefix.value + JdkLabelSuffix)];
      if IsBlank(capabilityPrefix) then jdk
      else
        var calls := jdk + [SystemRequirement(builderContextPrefix.value + ExecutableSuffix, capabilityPrefix.value)];
        assert calls[1].SystemRequirement?;
        calls
  }

  /** The server id the build context holds when no Artifactory server was selected. */
  const NoServerSelected := -1

  /**
   * The deployer and resolver settings of a build context.
   * `resetDeployerContextToDefault` and `resetResolverContextToDefault`
   * restore one section each to its defaults.
   */
  class PackageManagersContext {
    var artifactoryServerId: int
    var deployer: map<string, string>
    var resolver: map<string, string>
    const deployerDefaults: map<string, string>
    const resolverDefaults: map<string, string>

    constructor (serverId: int, deployer: map<string, string>, resolver: map<string, string>,
                 deployerDefaults: map<string, string>, resolverDefaults: map<string, string>)
      ensures artifactoryServerId == serverId && this.deployer == deployer && this.resolver == resolver
      ensures this.deployerDefaults == deployerDefaults && this.resolverDefaults == resolverDefaults
    {
      artifactoryServerId := serverId;
      this.deployer := deployer;
      this.resolver := resolver;
      this.deployerDefaults := deployerDefaults;
      this.resolverDefaults := resolverDefaults;
    }
  }

  /** `resetDeployerConfigIfNeeded`: only the deployer section, and only when no server was selected. */
  method ResetDeployerConfigIfNeeded(buildContext: PackageManagersContext)
    modifies buildContext
    ensures buildContext.artifactoryServerId == old(buildContext.artifactoryServerId)
    ensures buildContext.resolver == old(buildContext.resolver)
    ensures buildContext.artifactoryServerId == NoServerSelected ==> buildContext.deployer == buildContext.deployerDefaults
    ensures buildContext.artifactoryServerId != NoServerSelected ==> buildContext.deployer == old(buildContext.deployer)
  {
    var serverId := buildContext.artifactoryServerId;
    if serverId == NoServerSelected {
      buildContext.deployer := buildContext.deployerDefaults;
    }
  }

  /** `resetResolverConfigIfNeeded`: only the resolver section, and only when no server was selected. */
  method ResetResolverConfigIfNeeded(buildContext: PackageManagersContext)
    modifies buildContext
    ensures buildContext.artifactoryServerId == old(buildContext.artifactoryServerId)
    ensures buildContext.deployer == old(buildContext.deployer)
    ensures buildContext.artifactoryServerId == NoServerSelected ==> buildContext.resolver == buildContext.resolverDefaults
    ensures buildContext.artifactoryServerId != NoServerSelected ==> buildContext.resolver == old(buildContext.resolver)
  {
    var serverId := buildContext.artifactoryServerId;
    if serverId == NoServerSelected {
      buildContext.resolver := buildContext.resolverDefaults;
    }
  }

  /**
   * `getSshFileContent`: the new configuration entries for the SSH key. The
   * uploaded content (null when the upload could not be read) wins when it
   * is not blank; otherwise the previous definition's value is carried over
   * as it was, null included; with no previous definition nothing is stored.
   */
  function GetSshFileContent(uploadedContent: Option<string>, previousConfiguration: Option<map<string, string>>)
    : (r: map<string, Option<string>>)
    ensures r.Keys <= {SshFileKey}
    ensures !IsBlank(uploadedContent) ==> SshFileKey in r && r[SshFileKey] == uploadedContent
    ensures IsBlank(uploadedContent) && previousConfiguration.Some? ==>
      SshFileKey in r && r[SshFileKey] == Lookup(previousConfiguration.value, SshFileKey)
    ensures r == map[] <==> IsBlank(uploadedContent) && previousConfiguration.None?
  {
    if !IsBlank(uploadedContent) then map[SshFileKey := uploadedContent]
    else if previousConfiguration.Some? then map[SshFileKey := Lookup(previousConfiguration.value, SshFileKey)]
    else map[]
  }
}
