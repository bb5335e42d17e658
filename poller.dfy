/**
 The pluggable SCM material poller: it asks a source-control plugin for
 revisions and turns each plugin revision into the server's modification
 record.

 The first part gives, as functions, what each operation computes; the
 class at the end performs the operations step by step and is proved to
 compute those functions.
 */
module Poller {
  import opened Wrappers
  import Plugin = ScmPlugin
  import opened Materials

  // ---------------------------------------------------------------------------
  // Configuration projection
  // ---------------------------------------------------------------------------

  /** The plugin-facing properties built from a material's configuration:
      one property per entry, same key and value, same order. */
  function ScmProperties(configuration: seq<ConfigurationProperty>): (r: seq<Plugin.ScmProperty>)
    ensures |r| == |configuration|
    ensures forall i :: 0 <= i < |configuration| ==>
              r[i] == Plugin.ScmProperty(configuration[i].name, configuration[i].value)
  {
    if configuration == [] then []
    else
      var last := configuration[|configuration| - 1];
      ScmProperties(configuration[..|configuration| - 1]) + [Plugin.ScmProperty(last.name, last.value)]
  }

  // ---------------------------------------------------------------------------
  // Action mapping
  // ---------------------------------------------------------------------------

  /** The server's classification of a plugin file change. Total: an action
      the server does not recognise, or a missing one, is `Unknown`. */
  function ConvertAction(action: Option<Plugin.ModifiedAction>): (r: ModifiedAction)
    ensures r == ModifiedAction.Added <==> action == Some(Plugin.Added)
    ensures r == ModifiedAction.Modified <==> action == Some(Plugin.Modified)
    ensures r == ModifiedAction.Deleted <==> action == Some(Plugin.Deleted)
    ensures r == Unknown <==> (action.None? || action.value.Other?)
  {
    if action == Some(Plugin.Added) then ModifiedAction.Added
    else if action == Some(Plugin.Modified) then ModifiedAction.Modified
    else if action == Some(Plugin.Deleted) then ModifiedAction.Deleted
    else Unknown
  }

  // ---------------------------------------------------------------------------
  // Revision conversion
  // ---------------------------------------------------------------------------

  /** The changed files the server records for a plugin's file list. */
  function ConvertFiles(files: seq<Plugin.ModifiedFile>): (r: seq<ModifiedFile>)
    ensures |r| == |files|
    ensures forall i :: 0 <= i < |files| ==>
              r[i] == ModifiedFile(files[i].fileName, None, ConvertAction(files[i].action))
  {
    if files == [] then []
    else
      var last := files[|files| - 1];
      ConvertFiles(files[..|files| - 1]) + [ModifiedFile(last.fileName, None, ConvertAction(last.action))]
  }

  /** A revision's file list, a missing list read as empty. */
  function PluginFiles(revision: Plugin.ScmRevision): (r: seq<Plugin.ModifiedFile>)
    ensures revision.modifiedFiles.None? ==> r == []
    ensures revision.modifiedFiles.Some? ==> r == revision.modifiedFiles.value
  {
    if revision.modifiedFiles.Some? then revision.modifiedFiles.value else []
  }

  /** The modification recorded for one plugin revision, given the serialiser
      of the plugin's data bag. */
  function ModificationOf(revision: Plugin.ScmRevision, toJson: Option<Plugin.DataBag> -> string): (m: Modification)
    ensures m.userName == revision.user && m.comment == revision.revisionComment
    ensures m.modifiedTime == revision.timestamp && m.revision == revision.revision
    ensures m.emailAddress == None && m.additionalData == toJson(revision.data)
    ensures |m.files| == |PluginFiles(revision)|
    ensures forall i :: 0 <= i < |m.files| ==>
              var file := PluginFiles(revision)[i];
              m.files[i] == ModifiedFile(file.fileName, None, ConvertAction(file.action))
  {
    var created := NewModification(revision.user, revision.revisionComment, None,
                                   revision.timestamp, revision.revision, toJson(revision.data));
    if revision.modifiedFiles.Some? && revision.modifiedFiles.value != [] then
      created.(files := ConvertFiles(revision.modifiedFiles.value))
    else
      created
  }

  /** The modifications recorded for a list of plugin revisions. */
  function ConvertRevisions(revisions: seq<Plugin.ScmRevision>, toJson: Option<Plugin.DataBag> -> string): (r: seq<Modification>)
    ensures |r| == |revisions|
    ensures forall i :: 0 <= i < |revisions| ==> r[i] == ModificationOf(revisions[i], toJson)
  {
    if revisions == [] then []
    else
      ConvertRevisions(revisions[..|revisions| - 1], toJson) + [ModificationOf(revisions[|revisions| - 1], toJson)]
  }

  /** The modifications for a plugin's answer that may be null. */
  function ModificationsOf(revisions: Option<seq<Plugin.ScmRevision>>, toJson: Option<Plugin.DataBag> -> string): (r: seq<Modification>)
    ensures revisions.None? ==> r == []
    ensures revisions.Some? ==> |r| == |revisions.value|
    ensures revisions.Some? ==> forall i :: 0 <= i < |revisions.value| ==> r[i] == ModificationOf(revisions.value[i], toJson)
  {
    if revisions.None? || revisions.value == [] then [] else ConvertRevisions(revisions.value, toJson)
  }

  // ---------------------------------------------------------------------------
  // Latest / since polling
  // ---------------------------------------------------------------------------

  /** The answer to "latest modification" for the plugin's latest revision:
      empty exactly when the plugin has none, else that revision's modification. */
  function LatestModificationOf(latest: Option<Plugin.ScmRevision>, toJson: Option<Plugin.DataBag> -> string): (r: seq<Modification>)
    ensures r == [] <==> latest.None?
    ensures latest.Some? ==> r == [ModificationOf(latest.value, toJson)]
  {
    if latest.None? then [] else [ModificationOf(latest.value, toJson)]
  }

  /** The reference handed to the incremental query: the known revision's id,
      timestamp and data, with no user, comment or file list. */
  function PreviouslyKnownRevision(known: PluggableScmMaterialRevision): (r: Plugin.ScmRevision)
    ensures r.revision == known.revision && r.timestamp == known.timestamp && r.data == known.data
    ensures r.user == None && r.revisionComment == None && r.modifiedFiles == None
  {
    Plugin.ScmRevision(known.revision, known.timestamp, None, None, known.data, None)
  }

  // ---------------------------------------------------------------------------
  // Properties
  // ---------------------------------------------------------------------------

  /** Projecting a concatenation projects each part. */
  lemma ScmPropertiesAppend(a: seq<ConfigurationProperty>, b: seq<ConfigurationProperty>)
    ensures ScmProperties(a + b) == ScmProperties(a) + ScmProperties(b)
  {
  }

  /** The projection does not depend on the order of the configuration's
      entries: equal entries in any order give the same properties. */
  lemma {:induction false} ScmPropertiesOrderInsensitive(a: seq<ConfigurationProperty>, b: seq<ConfigurationProperty>)
    requires multiset(a) == multiset(b)
    ensures multiset(ScmProperties(a)) == multiset(ScmProperties(b))
  {
    if a != [] {
      var last := a[|a| - 1];
      assert a == a[..|a| - 1] + [last];
      assert last in multiset(b);
      var j :| 0 <= j < |b| && b[j] == last;
      assert b == b[..j] + [last] + b[j + 1..];
      var rest := b[..j] + b[j + 1..];
      assert multiset(a) == multiset(a[..|a| - 1]) + multiset{last};
      assert multiset(b) == multiset(rest) + multiset{last};
      assert multiset(a[..|a| - 1]) == multiset(a) - multiset{last};
      assert multiset(rest) == multiset(b) - multiset{last};
      ScmPropertiesOrderInsensitive(a[..|a| - 1], rest);
      ScmPropertiesAppend(b[..j] + [last], b[j + 1..]);
      ScmPropertiesAppend(b[..j], [last]);
      ScmPropertiesAppend(b[..j], b[j + 1..]);
    } else {
      assert b == [];
    }
  }

  /** Nothing is filtered or transformed: an entry is in the configuration
      exactly when a property with its key and value is in the projection. */
  lemma ScmPropertiesKeepEntries(configuration: seq<ConfigurationProperty>)
    ensures forall p :: p in configuration <==> Plugin.ScmProperty(p.name, p.value) in ScmProperties(configuration)
  {
  }

  /** Revisions are converted one by one: converting a concatenation
      concatenates the conversions, so nothing is reordered, merged or dropped. */
  lemma ConvertRevisionsAppend(a: seq<Plugin.ScmRevision>, b: seq<Plugin.ScmRevision>, toJson: Option<Plugin.DataBag> -> string)
    ensures ConvertRevisions(a + b, toJson) == ConvertRevisions(a, toJson) + ConvertRevisions(b, toJson)
  {
  }

  /** No modification produced by the poller carries an email address or a
      "modified in" value for any of its files. */
  lemma NoEmailNoFolder(revisions: Option<seq<Plugin.ScmRevision>>, toJson: Option<Plugin.DataBag> -> string)
    ensures forall m :: m in ModificationsOf(revisions, toJson) ==>
              m.emailAddress == None && forall f :: f in m.files ==> f.folderName == None
  {
  }

  // ---------------------------------------------------------------------------
  // The poller
  // ---------------------------------------------------------------------------

  class PluggableScmMaterialPoller {
    /** The plugin extension polled. */
    const scmExtension: Plugin.ScmExtension
    /** The serialiser of a revision's data bag into a modification's additional data. */
    const toJsonString: Option<Plugin.DataBag> -> string

    constructor (scmExtension: Plugin.ScmExtension, toJsonString: Option<Plugin.DataBag> -> string)
      ensures this.scmExtension == scmExtension && this.toJsonString == toJsonString
    {
      this.scmExtension := scmExtension;
      this.toJsonString := toJsonString;
    }

    /** Modifications for the material's latest revision: none when the
        plugin reports none, else exactly one. */
    method LatestModification(material: PluggableScmMaterial, baseDirPath: string) returns (r: seq<Modification>)
      ensures var latest := scmExtension.getLatestRevision(material.pluginId, ScmProperties(material.scmConfig.configuration), baseDirPath);
              r == LatestModificationOf(latest, toJsonString)
    {
      var scmPropertyConfiguration := BuildScmPropertyConfigurations(material.scmConfig);
      var scmRevision := scmExtension.getLatestRevision(material.pluginId, scmPropertyConfiguration.properties, baseDirPath);
      if scmRevision.None? {
        r := [];
      } else {
        var modification := GetModification(scmRevision.value);
        r := [modification];
      }
    }

    /** Modifications for every revision the plugin reports after the known one, in the plugin's order. */
    method ModificationsSince(material: PluggableScmMaterial, baseDirPath: string, revision: PluggableScmMaterialRevision)
      returns (r: seq<Modification>)
      ensures var since := scmExtension.latestModificationSince(
                material.pluginId, ScmProperties(material.scmConfig.configuration), baseDirPath, PreviouslyKnownRevision(revision));
              r == ModificationsOf(since, toJsonString)
    {
      var scmPropertyConfiguration := BuildScmPropertyConfigurations(material.scmConfig);
      var previouslyKnownRevision := PreviouslyKnownRevision(revision);
      var scmRevisions := scmExtension.latestModificationSince(
        material.pluginId, scmPropertyConfiguration.properties, baseDirPath, previouslyKnownRevision);
      r := GetModifications(scmRevisions);
    }

    method BuildScmPropertyConfigurations(scmConfig: Scm) returns (c: Plugin.ScmPropertyConfiguration)
      ensures fresh(c) && c.properties == ScmProperties(scmConfig.configuration)
    {
      c := new Plugin.ScmPropertyConfiguration();
      PopulateConfiguration(scmConfig.configuration, c);
    }

    /** Appends one plugin property per configuration entry, in order. */
    method PopulateConfiguration(configuration: seq<ConfigurationProperty>, pluginConfiguration: Plugin.ScmPropertyConfiguration)
      modifies pluginConfiguration
      ensures pluginConfiguration.properties == old(pluginConfiguration.properties) + ScmProperties(configuration)
    {
      for i := 0 to |configuration|
        invariant pluginConfiguration.properties == old(pluginConfiguration.properties) + ScmProperties(configuration[..i])
      {
        var configurationProperty := configuration[i];
        pluginConfiguration.Add(Plugin.ScmProperty(configurationProperty.name, configurationProperty.value));
        assert configuration[..i + 1][..i] == configuration[..i];
      }
      assert configuration[..|configuration|] == configuration;
    }

    method GetModifications(scmRevisions: Option<seq<Plugin.ScmRevision>>) returns (modifications: seq<Modification>)
      ensures modifications == ModificationsOf(scmRevisions, toJsonString)
    {
      modifications := [];
      if scmRevisions.None? || |scmRevisions.value| == 0 {
        return;
      }
      var revisions := scmRevisions.value;
      for i := 0 to |revisions|
        invariant modifications == ConvertRevisions(revisions[..i], toJsonString)
      {
        var modification := GetModification(revisions[i]);
        modifications := modifications + [modification];
        assert revisions[..i + 1][..i] == revisions[..i];
      }
      assert revisions[..|revisions|] == revisions;
    }

    method GetModification(scmRevision: Plugin.ScmRevision) returns (modification: Modification)
      ensures modification == ModificationOf(scmRevision, toJsonString)
    {
      modification := NewModification(scmRevision.user, scmRevision.revisionComment, None,
                                      scmRevision.timestamp, scmRevision.revision, toJsonString(scmRevision.data));
      if scmRevision.modifiedFiles.Some? && |scmRevision.modifiedFiles.value| != 0 {
        var files := scmRevision.modifiedFiles.value;
        ghost var created := modification;
        for i := 0 to |files|
          invariant modification == created.(files := ConvertFiles(files[..i]))
        {
          var modifiedFile := files[i];
          modification := modification.CreateModifiedFile(modifiedFile.fileName, None, ConvertAction(modifiedFile.action));
          assert files[..i + 1][..i] == files[..i];
        }
        assert files[..|files|] == files;
      }
    }
  }

}
