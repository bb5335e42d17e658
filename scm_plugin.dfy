/**
 The vocabulary of the source-control plugin API, as the poller sees it:
 revisions and modified files reported by a plugin, the plugin-facing
 configuration, and the two calls of the plugin extension.
 */
module ScmPlugin {
  import opened Wrappers

  /** A `java.util.Date`; only equality between timestamps matters here. */
  type Timestamp = int

  /** The plugin's private metadata attached to a revision. */
  type DataBag = map<string, string>

  /** The plugin's classification of a file change. Any constant of the
      plugin's enumeration other than the three named ones is `Other`. */
  datatype ModifiedAction = Added | Modified | Deleted | Other(name: string)

  /** A file change as the plugin reports it; a null action is `None`. */
  datatype ModifiedFile = ModifiedFile(fileName: string, action: Option<ModifiedAction>)

  /** A revision as the plugin reports it (or as the server hands it back
      as the previously known revision). */
  datatype ScmRevision = ScmRevision(
    revision: string,
    timestamp: Timestamp,
    user: Option<string>,
    revisionComment: Option<string>,
    data: Option<DataBag>,
    modifiedFiles: Option<seq<ModifiedFile>>)

  /** One key/value entry of the configuration handed to a plugin. */
  datatype ScmProperty = ScmProperty(key: string, value: string)

  /** The configuration handed to a plugin: an ordered list of properties
      that `Add` appends to. */
  class ScmPropertyConfiguration {
    var properties: seq<ScmProperty>

    constructor ()
      ensures properties == []
    {
      properties := [];
    }

    method Add(property: ScmProperty)
      modifies this
      ensures properties == old(properties) + [property]
    {
      properties := properties + [property];
    }
  }

  /** The plugin extension. Both calls go into the plugin runtime; they are
      given here as functions of what the poller passes them: the plugin id,
      the configuration's properties and the working directory's absolute
      path (and, for the incremental query, the previously known revision).
      A null answer is `None`. */
  datatype ScmExtension = ScmExtension(
    getLatestRevision: (string, seq<ScmProperty>, string) -> Option<ScmRevision>,
    latestModificationSince: (string, seq<ScmProperty>, string, ScmRevision) -> Option<seq<ScmRevision>>)

}
