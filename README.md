# Artifactory plugin for Bamboo: configurator and build-task rules

This project models, in Dafny, the self-contained rules of two classes of
the Artifactory plugin for the Bamboo continuous-integration server, and
proves what those rules promise.

- `AbstractArtifactoryConfiguration`, the base of the plugin's task
  configurators:
  - the masking of credential fields in a task configuration map:
    encrypting them for the UI and decrypting them back;
  - the defaults and legacy build-info flags written into the UI context;
  - which requirement calls a task asks for;
  - the choice of test directory;
  - the reset of deployer and resolver settings when no server is selected;
  - how an uploaded SSH key file is kept.
- `BaseJavaBuildTask`, the base of the plugin's Java build tasks:
  - resolving the build JDK from an override variable or an agent capability;
  - making a path end with the file separator;
  - canonical paths;
  - the error message of a failed external process;
  - combining the task configuration with the parent build's data;
  - the state left by creating the build-info files.

Files:

- `wrappers.dfy` (module `Wrappers`): Java's null as `Option`, a thrown
  exception as `Result.Err` or `Outcome.Fail`.
- `java_library.dfy` (module `JavaLibrary`): the Java library operations
  the rules use: `Map.get`, `startsWith`, `endsWith`, `contains`,
  `toLowerCase`, `trim`, `Boolean.parseBoolean`, and `StringUtils.isBlank`
  and `isEmpty`.
- `artifactory_configuration.dfy` (module `ArtifactoryConfiguration`).
- `base_java_build_task.dfy` (module `BaseJavaBuildTask`).

Modelling choices:

- A host `Map` that the plugin changes in place is a `JavaMap` object whose
  `entries` the methods reassign.
- `encOrDecFields` is a loop over the keys with invariants. It is proved equal
  to the specification function `Masked`, and the lemmas about `Masked` state
  the idempotence and round-trip promises.
- The plugin's `EncryptionHelper` is a `Cipher` value holding two arbitrary
  functions, `encryptForUi` and `decryptIfNeeded`.
  - `RoundTrips(c)` states the assumption that decrypting an encrypted value
    gives the original back.
  - Decrypting twice equals decrypting once only when every credential
    decrypts to a plain value. `DecryptTwiceUnwrapsTwice` shows that a
    credential encrypted twice loses one layer per decryption, even under
    the round trip.
- The UI context is a `map<string, ContextValue>`: a null, a string, a boolean
  or another host object. `(String) context.get(key)` throws
  `ClassCastException` when the value is neither null nor a string. The
  context-default methods return that as `Fail`.
- Results of file I/O are inputs of the model:
  - the uploaded SSH key file's content, null when it cannot be read;
  - the canonical path the file system resolves;
  - the paths or I/O errors from creating the build-info files.
- The agent's capability set, the override variables and the environment
  variables are plain maps.
- The platform's file separator is a parameter.
- Some keys and defaults come from classes that are not part of this model:
  `PackageManagersContext`, `ArtifactoryBuildContext`, `TaskConfigConstants`,
  `BuildParamsOverrideManager` and `BuildInfoFields`. They get stand-in
  string values. The proofs depend only on the keys being pairwise distinct.
  In particular the model leaves open whether `shouldEncrypt` selects the
  stored SSH key entry, since its real key is built from two such constants.
- The doc-comments at `AbstractArtifactoryConfiguration.java:239`, 267 and 277
  say a field is masked when its key ends with "password". The code
  (`shouldEncrypt`, line 262-264) masks a field when its lower-cased key
  contains "artifactory" and contains "password" or "ssh". The model follows
  the code. `SelectionIsByContainment` exhibits a selected key that does not
  end with "password".
- In `encOrDecFields` the `isEncrypted` test never changes the stored value.
  Decrypting always stores `decryptIfNeeded(v)`, and encrypting always stores
  `encryptForUi(decryptIfNeeded(v))`. `MaskedValueIsDecryptThenEncrypt`
  proves this.

## Model

| member | source | states |
|---|---|---|
| `JavaLibrary.ToLowerCase` | src/main/java/org/jfrog/bamboo/configuration/AbstractArtifactoryConfiguration.java:248 | lower-casing keeps the length and folds each character on its own |
| `JavaLibrary.TrimStart` | src/main/java/org/jfrog/bamboo/task/BaseJavaBuildTask.java:181 | the front of `trim` leaves a suffix of the input that is empty or starts above U+0020, and every dropped character is at most U+0020 |
| `JavaLibrary.TrimEnd` | src/main/java/org/jfrog/bamboo/task/BaseJavaBuildTask.java:181 | the back of `trim` leaves a prefix of the input that is empty or ends above U+0020, and every dropped character is at most U+0020 |
| `JavaLibrary.TrimNonEmptyIff` | src/main/java/org/jfrog/bamboo/task/BaseJavaBuildTask.java:181 | `reason.trim().length() > 0` holds exactly when the reason has a character above U+0020 |
| `ArtifactoryConfiguration.ShouldEncrypt` | src/main/java/org/jfrog/bamboo/configuration/AbstractArtifactoryConfiguration.java:262-264 | the lower-cased key contains "artifactory" and also "password" or "ssh" |
| `ArtifactoryConfiguration.IsEncrypted` | src/main/java/org/jfrog/bamboo/configuration/AbstractArtifactoryConfiguration.java:232-235 | a value is taken as encrypted exactly when `decryptIfNeeded` changes it |
| `ArtifactoryConfiguration.MaskedValue` | src/main/java/org/jfrog/bamboo/configuration/AbstractArtifactoryConfiguration.java:250-256 | the new value of one selected entry: decrypted when `isEncrypted` holds, then encrypted for the UI in encrypt mode |
| `ArtifactoryConfiguration.IsLegacyTask` | src/main/java/org/jfrog/bamboo/configuration/AbstractArtifactoryConfiguration.java:120 | a task is legacy when its configuration does not say "true", in any letter case, for build-info aggregation |
| `BaseJavaBuildTask.ShouldOverrideJdk` | src/main/java/org/jfrog/bamboo/task/BaseJavaBuildTask.java:188-191 | the JDK is overridden exactly when the override variable says "true" in any letter case |
| `ArtifactoryConfiguration.Masked` | src/main/java/org/jfrog/bamboo/configuration/AbstractArtifactoryConfiguration.java:246-260 | masking never adds or removes a key, leaves every non-credential entry unchanged, and rewrites every credential entry |
| `ArtifactoryConfiguration.EncOrDecFields` | src/main/java/org/jfrog/bamboo/configuration/AbstractArtifactoryConfiguration.java:246-260 | the in-place loop over the entries leaves the map equal to `Masked` of the map it started from |
| `ArtifactoryConfiguration.EncryptFields` | src/main/java/org/jfrog/bamboo/configuration/AbstractArtifactoryConfiguration.java:272-274 | the map becomes its encrypt-mode masking |
| `ArtifactoryConfiguration.DecryptFields` | src/main/java/org/jfrog/bamboo/configuration/AbstractArtifactoryConfiguration.java:282-284 | the map becomes its decrypt-mode masking |
| `ArtifactoryConfiguration.MaskedValueIsDecryptThenEncrypt` | src/main/java/org/jfrog/bamboo/configuration/AbstractArtifactoryConfiguration.java:232-257 | a credential value becomes `Dec(v)` in decrypt mode and `Enc(Dec(v))` in encrypt mode, whatever `isEncrypted` says |
| `ArtifactoryConfiguration.DecryptKeepsPlainValues` | src/main/java/org/jfrog/bamboo/configuration/AbstractArtifactoryConfiguration.java:276-283 | decrypting a map whose credential values are already plain changes nothing |
| `ArtifactoryConfiguration.DecryptIdempotent` | src/main/java/org/jfrog/bamboo/configuration/AbstractArtifactoryConfiguration.java:276-283 | decrypting twice is decrypting once exactly when every credential decrypts to a plain value, in both directions, for every map |
| `ArtifactoryConfiguration.DecryptTwiceUnwrapsTwice` | src/main/java/org/jfrog/bamboo/configuration/AbstractArtifactoryConfiguration.java:276-283 | under the round trip, a credential encrypted twice becomes `Enc(x)` after one decryption and `x` after a second, so decrypting is not idempotent in general |
| `ArtifactoryConfiguration.EncryptKeepsCipherText` | src/main/java/org/jfrog/bamboo/configuration/AbstractArtifactoryConfiguration.java:266-274 | under the round trip, a value that `encryptForUi` produced is kept as it is and not encrypted again |
| `ArtifactoryConfiguration.EncryptIdempotent` | src/main/java/org/jfrog/bamboo/configuration/AbstractArtifactoryConfiguration.java:266-274 | under the round trip, encrypting twice is encrypting once |
| `ArtifactoryConfiguration.EncryptThenDecrypt` | src/main/java/org/jfrog/bamboo/configuration/AbstractArtifactoryConfiguration.java:171-175 | under the round trip, encrypting then decrypting equals decrypting alone: each credential is its decrypted original and nothing else changes |
| `ArtifactoryConfiguration.SelectionIgnoresCase` | src/main/java/org/jfrog/bamboo/configuration/AbstractArtifactoryConfiguration.java:248-249 | a key is selected exactly when its lower-cased form is |
| `JavaLibrary.ContainsLowerCaseIff` | src/main/java/org/jfrog/bamboo/configuration/AbstractArtifactoryConfiguration.java:248-263 | the lower-cased key contains a word exactly when the key contains that word in some letter case |
| `ArtifactoryConfiguration.CredentialKeyIff` | src/main/java/org/jfrog/bamboo/configuration/AbstractArtifactoryConfiguration.java:248-264 | an entry is selected exactly when its key contains "artifactory", and "password" or "ssh", ignoring case |
| `ArtifactoryConfiguration.SelectionIsByContainment` | src/main/java/org/jfrog/bamboo/configuration/AbstractArtifactoryConfiguration.java:262-264 | selection is by containment: a key with "ssh" inside is selected though it does not end with "password", and a key with neither word is not |
| `ArtifactoryConfiguration.PopulateContextWithConfiguration` | src/main/java/org/jfrog/bamboo/configuration/AbstractArtifactoryConfiguration.java:168-176 | the context receives the encrypted values of the listed fields; the configuration ends as its encryption decrypted back, which under the round trip is its decryption |
| `ArtifactoryConfiguration.CopiedFields` | src/main/java/org/jfrog/bamboo/configuration/AbstractArtifactoryConfiguration.java:173 | every listed field is copied, null when the configuration lacks it, and no other field |
| `ArtifactoryConfiguration.ContextShowsEncryptedCredentials` | src/main/java/org/jfrog/bamboo/configuration/AbstractArtifactoryConfiguration.java:171-173 | the UI context holds a credential field as `Enc(Dec(v))`; when encryption changes every value, that is never the plain text `Dec(v)` |
| `ArtifactoryConfiguration.GetTestDirectory` | src/main/java/org/jfrog/bamboo/configuration/AbstractArtifactoryConfiguration.java:95-103 | the default directory for the standard option, the context's directory for the custom option, null for any other; an error only from the default-directory hook |
| `ArtifactoryConfiguration.BaseDefaultTestDirectory` | src/main/java/org/jfrog/bamboo/configuration/AbstractArtifactoryConfiguration.java:315-317 | the base class has no default test directory: it always throws |
| `ArtifactoryConfiguration.LegacyTaskIff` | src/main/java/org/jfrog/bamboo/configuration/AbstractArtifactoryConfiguration.java:120 | a configuration without the aggregation key is legacy; with the key, a task is legacy exactly when its value is not "true" in some letter case; so any value not four characters long is legacy |
| `ArtifactoryConfiguration.PopulateLegacyContextForEdit` | src/main/java/org/jfrog/bamboo/configuration/AbstractArtifactoryConfiguration.java:119-124 | a legacy task gets capture false and publish true; otherwise the context is unchanged |
| `ArtifactoryConfiguration.PopulateLegacyContextForCreate` | src/main/java/org/jfrog/bamboo/configuration/AbstractArtifactoryConfiguration.java:137-141 | a new task gets aggregation true, capture true and publish false; nothing else changes |
| `ArtifactoryConfiguration.WithDefault` | src/main/java/org/jfrog/bamboo/configuration/AbstractArtifactoryConfiguration.java:359-364 | put-if-absent: the default is written only under an absent or null key; existing values and all other keys are kept |
| `ArtifactoryConfiguration.WithDefaultIdempotent` | src/main/java/org/jfrog/bamboo/configuration/AbstractArtifactoryConfiguration.java:359-364 | writing a default a second time changes nothing |
| `ArtifactoryConfiguration.WithDefaultsCommute` | src/main/java/org/jfrog/bamboo/configuration/AbstractArtifactoryConfiguration.java:366-375 | the defaults for two different keys are independent: their order does not matter |
| `ArtifactoryConfiguration.PopulateDefaultEnvVarsExcludePatternsInBuildContext` | src/main/java/org/jfrog/bamboo/configuration/AbstractArtifactoryConfiguration.java:359-364 | the exclude patterns default is written when absent or null; a non-string value throws and changes nothing |
| `ArtifactoryConfiguration.PopulateDefaultBuildNameNumberInBuildContext` | src/main/java/org/jfrog/bamboo/configuration/AbstractArtifactoryConfiguration.java:366-375 | the build name default, then the build number default, each only when absent or null; a non-string value throws and stops there |
| `ArtifactoryConfiguration.BuildNameNumberDefaultsSettle` | src/main/java/org/jfrog/bamboo/configuration/AbstractArtifactoryConfiguration.java:366-375 | a second application of the name and number defaults changes nothing |
| `ArtifactoryConfiguration.CalculateRequirements` | src/main/java/org/jfrog/bamboo/configuration/AbstractArtifactoryConfiguration.java:155-166 | no calls when the builder prefix is blank; otherwise exactly one JDK requirement, first, and one system requirement exactly when the capability prefix is also not blank, and no other call |
| `ArtifactoryConfiguration.ResetDeployerConfigIfNeeded` | src/main/java/org/jfrog/bamboo/configuration/AbstractArtifactoryConfiguration.java:291-296 | the deployer settings return to their defaults exactly when the server id is -1; the resolver settings and the server id are kept |
| `ArtifactoryConfiguration.ResetResolverConfigIfNeeded` | src/main/java/org/jfrog/bamboo/configuration/AbstractArtifactoryConfiguration.java:303-308 | the resolver settings return to their defaults exactly when the server id is -1; the deployer settings and the server id are kept |
| `ArtifactoryConfiguration.GetSshFileContent` | src/main/java/org/jfrog/bamboo/configuration/AbstractArtifactoryConfiguration.java:333-345 | at most the SSH key entry; a non-blank upload wins; else the previous definition's value, null included; empty exactly when the upload is blank and there is no previous definition |
| `BaseJavaBuildTask.GetPathBuilder` | src/main/java/org/jfrog/bamboo/task/BaseJavaBuildTask.java:130-136 | the result starts with the base path and ends with the separator; it is the base path when that already ends with the separator, and the base path plus the separator otherwise |
| `BaseJavaBuildTask.GetPathBuilderIdempotent` | src/main/java/org/jfrog/bamboo/task/BaseJavaBuildTask.java:130-136 | applying it twice equals applying it once |
| `BaseJavaBuildTask.GetCanonicalPath` | src/main/java/org/jfrog/bamboo/task/BaseJavaBuildTask.java:141-151 | a path without a space is returned unchanged; an error only when a path with a space cannot be resolved |
| `BaseJavaBuildTask.JdkEnvVarName` | src/main/java/org/jfrog/bamboo/task/BaseJavaBuildTask.java:94-97 | the configured variable name, or `JAVA_HOME` when it is null or empty |
| `BaseJavaBuildTask.GetConfiguredJdkPath` | src/main/java/org/jfrog/bamboo/task/BaseJavaBuildTask.java:90-122 | override mode: an error exactly when the variable is undefined, otherwise its path; capability mode: null exactly when the set is null, the `system.jdk.<label>` capability is missing or its value blank; every path returned ends with the separator |
| `BaseJavaBuildTask.GetErrorMessage` | src/main/java/org/jfrog/bamboo/task/BaseJavaBuildTask.java:159-186 | empty exactly when there is no exception and no non-blank error output; the exception segment comes first; the reason segment ends the message exactly when the trimmed output is not empty; with both, the message is the exception segment followed directly by the reason segment |
| `BaseJavaBuildTask.ReasonReportedIff` | src/main/java/org/jfrog/bamboo/task/BaseJavaBuildTask.java:181-183 | with no exception, the message is non-empty exactly when the error output has a character above U+0020 |
| `BaseJavaBuildTask.GetCombinedConfiguration` | src/main/java/org/jfrog/bamboo/task/BaseJavaBuildTask.java:222-231 | the union of the keys; the parent build's data wins on conflicts; without a parent, the task configuration itself |
| `BaseJavaBuildTask.BuildTask.CreateBuildInfoFiles` | src/main/java/org/jfrog/bamboo/task/BaseJavaBuildTask.java:233-246 | the generated build-info variable is set only when capture is requested; an I/O error becomes the task exception; a non-blank properties path switches recording on, and recording is never switched off |

## Left out

- Host wiring is not modelled. This covers the constructors, `ContainerManager`,
  `ServerConfigManager.getInstance` and the setters Bamboo calls by
  reflection: they hold no behaviour of their own.
- `populateContextForEdit`, `populateContextForCreate`,
  `populateContextForAllOperations` and `generateTaskConfigMap` are not
  modelled. They copy constants and host objects into host-owned maps.
- The real cryptography of `EncryptionHelper` is not modelled. `Cipher` keeps
  the two functions arbitrary and states only the assumptions the lemmas use.
- `readFileByKey` reads a file. Its result is an input of `GetSshFileContent`,
  and its logging is left out.
- The file-system resolution inside `getCanonicalPath` is an input of
  `GetCanonicalPath`.
- The creation of the JSON and properties files by the build-info data
  helper is an input of `CreateBuildInfoFiles`.
- `collectTestResults`, `getExternalProcess` and `executeExternalProcess` are
  not modelled. They are calls into Bamboo's process and test-collation
  services.
- `convertGeneratedBuildInfoToBuild` is not modelled. It delegates to the
  external build-info library.
- `getGitAuthenticationTypes`, `getVcsTypes` and the i18n lookups are not
  modelled. They list enums and call host localisation.
- `initEnvironmentVariables` is not modelled. It copies the host's
  environment into the `environmentVariables` map.
- `CalculateRequirements`: returns the helper calls the method makes, not the
  requirement objects that `TaskConfiguratorHelperImpl` builds from them.
- `CopiedFields`: the copy done by `TaskConfiguratorHelperImpl` is not part
  of this model. It is taken to put each listed key's configuration value,
  null when absent, into the context.
- `ResetDeployerConfigIfNeeded`, `ResetResolverConfigIfNeeded`: the host's
  `resetDeployerContextToDefault` and `resetResolverContextToDefault` are
  modelled as restoring one section each to fixed defaults. The server id is
  an unbounded integer rather than a Java `long`.
- `ToLowerCase` folds only the ASCII letters. Java's `toLowerCase` is
  locale-sensitive and folds all of Unicode. The words the keys are matched
  against are ASCII.
- The model's characters are Unicode scalar values. Java strings are UTF-16
  code units.
- `GetCombinedConfiguration`: the cast `(TaskContext) context` at
  `BaseJavaBuildTask.java:225` throws `ClassCastException` for any other
  `CommonTaskContext`. The model's inputs are already a task context's
  configuration and parent data, so that exception path is not modelled.
- `GetCanonicalPath`: `getCanonicalPath(null)` returns null, because
  `StringUtils.contains(null, " ")` is false. The model's path is a string
  and cannot be null, so that case is not modelled.
- `GetConfiguredJdkPath`: `shouldOverrideJdk` (line 189) reads the task's
  `buildParamsOverrideManager` field, while line 94 reads the method's
  parameter of the same name. The model reads both keys from one
  `overrides` map, so it does not capture two managers that disagree.
- `EncryptKeepsCipherText`: covers only values that `encryptForUi`
  produced. A value `isEncrypted` accepts for another reason, such as one
  encrypted in another form, is decrypted and re-encrypted for the UI, so
  it changes.
- `ContextShowsEncryptedCredentials`: the source's promise that credentials
  do not appear as free text depends on the cryptography. The model proves
  it only under `EncryptionHides`, the assumption that encryption changes
  every value.
- Configuration maps hold no null values. The one null the core writes into
  one is from `GetSshFileContent`: it yields `None` under the SSH key entry
  when the previous definition lacks that key. The model keeps that `None`
  in its own result map and does not model the configuration map that
  receives it.
- A null map, or a null key or value where the source would throw
  `NullPointerException`, is not modelled.
