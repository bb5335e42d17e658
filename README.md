# Pluggable SCM material poller

A Dafny model of the poller that the continuous-delivery server uses for
materials whose source control is implemented by a plugin
(`PluggableSCMMaterialPoller`). The poller does four things:

- it projects the material's SCM configuration into the configuration the
  plugin receives: one plugin property per configured key, same value, same order;
- it asks the plugin for the latest revision, or for the revisions since a
  previously known one, and turns the answer into a list of modifications:
  empty for a null answer, one modification per plugin revision otherwise;
- it converts a plugin revision into the server's modification record: user,
  comment, timestamp and revision copied, no email, the revision's data bag
  serialised as additional data, and one changed-file entry per plugin file;
- it maps the plugin's file-change action onto the server's
  (`added`, `modified`, `deleted`, anything else `unknown`).

Files:

- `wrappers.dfy` — `Option`, standing for a Java reference that may be null.
- `scm_plugin.dfy` — module `ScmPlugin`: the plugin API's revision, modified
  file, action and property; the plugin configuration (a class whose `Add`
  appends a property); the plugin extension as two functions.
- `materials.dfy` — module `Materials`: the server's modification,
  modified file and action; the material, its SCM configuration and the
  recorded material revision.
- `poller.dfy` — module `Poller`: what each operation computes, as functions
  with contracts; the properties relating them, as lemmas; and the class
  `PluggableScmMaterialPoller`, whose methods follow the Java methods step
  by step (loops included) and are proved to compute those functions.

The plugin extension's two calls and the JSON serialiser are outside the
model's code: the extension is a value of two functions (plugin id,
configuration properties, working-directory path and, for the incremental
query, the previously known revision, to the plugin's answer), and the
serialiser is a function from a data bag that may be null to a string. Both
are fixed when the poller is constructed. The working directory is given as
its absolute path. The execution context is unused by the poller and is
dropped.

## Model

| member | source | states |
|---|---|---|
| `Poller.PluggableScmMaterialPoller.constructor` | server/src/com/thoughtworks/go/server/service/materials/PluggableSCMMaterialPoller.java:45-47 | the poller keeps the extension (and the serialiser) it is given |
| `Poller.ScmProperties` | server/src/com/thoughtworks/go/server/service/materials/PluggableSCMMaterialPoller.java:71-75 | the projection has exactly one property per configuration entry, and property i has entry i's key and value |
| `Poller.ScmPropertiesAppend` | server/src/com/thoughtworks/go/server/service/materials/PluggableSCMMaterialPoller.java:72-74 | the projection of a concatenation is the concatenation of the projections: each entry is projected on its own |
| `Poller.ScmPropertiesOrderInsensitive` | server/src/com/thoughtworks/go/server/service/materials/PluggableSCMMaterialPoller.java:71-75 | two configurations holding the same entries in any order project to the same multiset of plugin properties |
| `Poller.ScmPropertiesKeepEntries` | server/src/com/thoughtworks/go/server/service/materials/PluggableSCMMaterialPoller.java:72-74 | nothing is filtered or transformed: an entry is in the configuration iff a property with its key and value is in the projection |
| `Poller.PluggableScmMaterialPoller.PopulateConfiguration` | server/src/com/thoughtworks/go/server/service/materials/PluggableSCMMaterialPoller.java:71-75 | the plugin configuration afterwards is its old property list followed by the projection of the configuration, in iteration order |
| `Poller.PluggableScmMaterialPoller.BuildScmPropertyConfigurations` | server/src/com/thoughtworks/go/server/service/materials/PluggableSCMMaterialPoller.java:65-69 | returns a new plugin configuration holding exactly the projection of the SCM's configuration |
| `ScmPlugin.ScmPropertyConfiguration.Add` | server/src/com/thoughtworks/go/server/service/materials/PluggableSCMMaterialPoller.java:73 | the `add` call: the plugin configuration's property list afterwards is the old list with the new property appended at the end |
| `Materials.NewModification` | server/src/com/thoughtworks/go/server/service/materials/PluggableSCMMaterialPoller.java:89-90 | the modification constructor: a new modification holds the given user, comment, email, time, revision and additional data, and no changed files yet |
| `Materials.Modification.CreateModifiedFile` | server/src/com/thoughtworks/go/server/service/materials/PluggableSCMMaterialPoller.java:93 | the `createModifiedFile` call: the modification's files afterwards are the old files followed by one entry with the given name, "modified in" value and action, and no other field changes |
| `Poller.ConvertAction` | server/src/com/thoughtworks/go/server/service/materials/PluggableSCMMaterialPoller.java:99-108 | total: added, modified, deleted map to the same-named server action and nothing else does; every other action, and a null one, maps to unknown |
| `Poller.ConvertFiles` | server/src/com/thoughtworks/go/server/service/materials/PluggableSCMMaterialPoller.java:91-95 | one changed-file entry per plugin file, in order; entry i has file i's name, no "modified in" value and file i's converted action |
| `Poller.ModificationOf` | server/src/com/thoughtworks/go/server/service/materials/PluggableSCMMaterialPoller.java:88-97 | the modification has the revision's user, comment, timestamp and revision id, no email, the serialised data bag as additional data, and one entry per plugin file (none for a null or empty list) with the file's name, no "modified in" value and the converted action |
| `Poller.PluggableScmMaterialPoller.GetModification` | server/src/com/thoughtworks/go/server/service/materials/PluggableSCMMaterialPoller.java:88-97 | the modification built by creating one changed file per plugin file in list order is the one ModificationOf describes |
| `Poller.ConvertRevisions` | server/src/com/thoughtworks/go/server/service/materials/PluggableSCMMaterialPoller.java:82-84 | as many modifications as revisions, and modification i is the conversion of revision i |
| `Poller.ConvertRevisionsAppend` | server/src/com/thoughtworks/go/server/service/materials/PluggableSCMMaterialPoller.java:82-84 | converting a concatenation of revision lists concatenates their conversions: no reordering, merging or dropping across revisions |
| `Poller.ModificationsOf` | server/src/com/thoughtworks/go/server/service/materials/PluggableSCMMaterialPoller.java:77-86 | a null answer gives no modifications; otherwise as many modifications as revisions (none for an empty list) and modification i is the conversion of revision i |
| `Poller.PluggableScmMaterialPoller.GetModifications` | server/src/com/thoughtworks/go/server/service/materials/PluggableSCMMaterialPoller.java:77-86 | the list built by the early return and the loop is the one ModificationsOf describes |
| `Poller.NoEmailNoFolder` | server/src/com/thoughtworks/go/server/service/materials/PluggableSCMMaterialPoller.java:89-93 | no modification the poller returns carries an email address, and none of their changed files a "modified in" value |
| `Poller.LatestModificationOf` | server/src/com/thoughtworks/go/server/service/materials/PluggableSCMMaterialPoller.java:53 | the answer is empty iff the plugin reports no latest revision, and otherwise is exactly the one modification converted from it |
| `Poller.PluggableScmMaterialPoller.LatestModification` | server/src/com/thoughtworks/go/server/service/materials/PluggableSCMMaterialPoller.java:50-54 | asks the plugin with the material's plugin id, the projection of its configuration and the working directory, and answers LatestModificationOf that answer |
| `Poller.PreviouslyKnownRevision` | server/src/com/thoughtworks/go/server/service/materials/PluggableSCMMaterialPoller.java:59-60 | the reference for the incremental query carries the known revision's id, timestamp and data, and no user, comment or file list |
| `Poller.PluggableScmMaterialPoller.ModificationsSince` | server/src/com/thoughtworks/go/server/service/materials/PluggableSCMMaterialPoller.java:57-63 | asks the plugin with the material's plugin id, the projected configuration, the working directory and the previously known reference, and answers ModificationsOf that answer, in the plugin's order |

## Left out

- The plugin runtime behind `getLatestRevision` and `latestModificationSince`: it is foreign code that may do process or network I/O, so each call is a function parameter of the extension, and failures it raises (which the poller lets through unchanged) are not modelled.
- `JsonHelper.toJsonString` is not part of this model: it is a function parameter assumed deterministic, and no serialise/deserialise round trip of the data bag is claimed, since nothing in the poller establishes one.
- The working directory `File` and its `getAbsolutePath()` are replaced by the path string; the subprocess execution context, which the poller never uses, is dropped.
- The down-cast of the known revision to a pluggable SCM material revision is a runtime type check; `ModificationsSince` takes that narrow type instead, so a `ClassCastException` is not modelled.
- `Modification` and `Modifications` are not part of this model: a modification is a value whose changed files form a sequence that `createModifiedFile` appends to, so any de-duplication inside their collections, and their object identity, are not modelled.
- `ConfigurationProperty.getValue` is not part of this model: a configuration entry carries the value it yields, so decryption of secure values is not modelled; an `SCMProperty` carries only its key and value, not its default options.
- Timestamps are integers compared only for equality. Null user, comment, data bag, file list, file action and plugin answers are modelled; the model's types make every other null unrepresentable, so none of the following is modelled:
  - a null revision id or timestamp, which the poller copies unchanged;
  - a null material, SCM or configuration, which the poller dereferences;
  - a null configuration key or a null `getValue()` (line 73), which would be copied into the plugin property;
  - a null `baseDir`, which throws a `NullPointerException` at lines 52 and 61;
  - a null known revision, which throws at line 60;
  - a null element of the plugin's revision list, which throws in `getModification` at line 89;
  - a null element of a revision's file list, which throws at line 93;
  - a null file name, which would be recorded as null.
- The plugin extension is a pair of fixed functions: its answer depends only on the arguments of the call and stays the same for the poller's whole lifetime. The real plugin answers from the repository's state at the time of each call (lines 52 and 61), which is what polling observes. So any fact that spans several polls, such as two polls of the same material giving the same result, holds only in the model. Every contract here is about a single call.
- The plugin's action enumeration is given as the three recognised constants plus `Other` for any further constant, since its full list is not part of this model.
