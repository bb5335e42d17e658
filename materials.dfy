/**
 The server's own vocabulary: the pluggable SCM material and its recorded
 revision, and the modification records the poller produces.
 */
module Materials {
  import opened Wrappers
  import ScmPlugin

  /** The server's classification of a file change. */
  datatype ModifiedAction = Added | Modified | Deleted | Unknown

  /** One changed file of a modification; `folderName` is the "modified in" value. */
  datatype ModifiedFile = ModifiedFile(fileName: string, folderName: Option<string>, action: ModifiedAction)

  /** The server's record of one discovered change. */
  datatype Modification = Modification(
    userName: Option<string>,
    comment: Option<string>,
    emailAddress: Option<string>,
    modifiedTime: ScmPlugin.Timestamp,
    revision: string,
    additionalData: string,
    files: seq<ModifiedFile>)
  {
    /** Records one more changed file; nothing else about the modification changes. */
    function CreateModifiedFile(fileName: string, folderName: Option<string>, action: ModifiedAction): (m: Modification)
      ensures m.files == files + [ModifiedFile(fileName, folderName, action)]
      ensures m.(files := files) == this
    {
      this.(files := files + [ModifiedFile(fileName, folderName, action)])
    }
  }

  /** The six-argument constructor of a modification: no changed files yet. */
  function NewModification(
    user: Option<string>, comment: Option<string>, email: Option<string>,
    time: ScmPlugin.Timestamp, revision: string, additionalData: string): (r: Modification)
    ensures r.files == []
    ensures r.userName == user && r.comment == comment && r.emailAddress == email
    ensures r.modifiedTime == time && r.revision == revision && r.additionalData == additionalData
  {
    Modification(user, comment, email, time, revision, additionalData, [])
  }

  /** One configured key and the value `getValue` yields for it. */
  datatype ConfigurationProperty = ConfigurationProperty(name: string, value: string)

  /** The SCM definition a material refers to; only its configuration is used here. */
  datatype Scm = Scm(configuration: seq<ConfigurationProperty>)

  datatype PluggableScmMaterial = PluggableScmMaterial(pluginId: string, scmConfig: Scm)

  /** The revision the server last recorded for a pluggable SCM material. */
  datatype PluggableScmMaterialRevision = PluggableScmMaterialRevision(
    revision: string,
    timestamp: ScmPlugin.Timestamp,
    data: Option<ScmPlugin.DataBag>)

}
