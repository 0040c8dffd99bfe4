/** The query facade of templatesProvider.js: `getProjectTypes` turns the
    master index into wizard descriptors, and `getRepositories` enables odo's
    experimental mode, copies the master index over the reconciled index and
    returns a single repository descriptor that points at the copy.

    The extension's files are an abstract store from paths to index files;
    a file holds the parsed template list, or text that does not parse as
    JSON. The odo command is not run; its outcome is an input. */
module Provider {
  import opened Wrappers
  import opened Seqs
  import opened Strings
  import opened Templates

  const BasePath: string := "/codewind-workspace/.extensions/codewind-odo-extension-devfile"
  const MasterIndexPath: string := BasePath + "/templates/master-index.json"
  const ReconciledIndexPath: string := BasePath + "/templates/index.json"
  const FileUrlScheme: string := "file://"
  const JsonFileUrl: string := FileUrlScheme + ReconciledIndexPath
  const SetExperimentalCommand: string := BasePath + "/bin/odo preference set experimental true -f"

  const RepositoryName: string := "OpenShift Devfile templates"
  const RepositoryDescription: string := "The set of templates for new OpenShift Devfile projects in Codewind."

  const OdoProjectType: string := "odo"
  const SubtypesLabel: string := "OpenShift component"
  const ItemIdPrefix: string := "OpenShift/"
  const ItemLabelPrefix: string := "OpenShift "

  datatype RepositoryDescriptor = RepositoryDescriptor(
    name: string,
    description: string,
    url: string,
    projectStyles: seq<string>)

  // `labelText` is the JSON property `label` (a reserved word in Dafny).
  datatype SubtypeItem = SubtypeItem(id: string, labelText: string, description: string)
  datatype ProjectSubtypes = ProjectSubtypes(labelText: string, items: seq<SubtypeItem>)
  datatype ProjectTypeDescriptor = ProjectTypeDescriptor(projectType: string, projectSubtypes: ProjectSubtypes)

  /** The contents of an index file: a parsed template list, or text that
      `JSON.parse` rejects. */
  datatype IndexFile = Parsed(templates: seq<Template>) | Unparsable

  datatype ProviderError =
    | CommandFailed(command: string, reason: string)
    | FileMissing(path: string)
    | ParseFailed(path: string)
    | WriteFailed(path: string, reason: string)

  /** The descriptor of one master-index entry: project type `odo`, one
      item whose id and label are the entry's language behind fixed
      prefixes, and the entry's description. */
  function Describe(t: Template): (r: ProjectTypeDescriptor)
    ensures r.projectType == OdoProjectType
    ensures r.projectSubtypes.labelText == SubtypesLabel
    ensures |r.projectSubtypes.items| == 1
    ensures StartsWith(r.projectSubtypes.items[0].id, ItemIdPrefix)
    ensures r.projectSubtypes.items[0].id[|ItemIdPrefix|..] == t.language
    ensures StartsWith(r.projectSubtypes.items[0].labelText, ItemLabelPrefix)
    ensures r.projectSubtypes.items[0].labelText[|ItemLabelPrefix|..] == t.language
    ensures r.projectSubtypes.items[0].description == t.description
  {
    assert (ItemIdPrefix + t.language)[..|ItemIdPrefix|] == ItemIdPrefix;
    assert (ItemLabelPrefix + t.language)[..|ItemLabelPrefix|] == ItemLabelPrefix;
    ProjectTypeDescriptor(OdoProjectType, ProjectSubtypes(SubtypesLabel, [
      SubtypeItem(ItemIdPrefix + t.language, ItemLabelPrefix + t.language, t.description)]))
  }

  /** The mapping inside getProjectTypes: one descriptor per entry, in order,
      each of project type `odo` with a single item named after the entry's
      language and carrying its description. */
  function ProjectTypes(master: seq<Template>): (r: seq<ProjectTypeDescriptor>)
    ensures |r| == |master|
    ensures forall i :: 0 <= i < |r| ==>
      && r[i].projectType == OdoProjectType
      && r[i].projectSubtypes.labelText == SubtypesLabel
      && |r[i].projectSubtypes.items| == 1
      && StartsWith(r[i].projectSubtypes.items[0].id, ItemIdPrefix)
      && r[i].projectSubtypes.items[0].id[|ItemIdPrefix|..] == master[i].language
      && StartsWith(r[i].projectSubtypes.items[0].labelText, ItemLabelPrefix)
      && r[i].projectSubtypes.items[0].labelText[|ItemLabelPrefix|..] == master[i].language
      && r[i].projectSubtypes.items[0].description == master[i].description
  {
    Map(Describe, master)
  }

  /** Two entries get the same descriptor exactly when they agree on
      language and description: the descriptor keeps both and nothing else. */
  lemma DescribeSameIff(a: Template, b: Template)
    ensures Describe(a) == Describe(b) <==> a.language == b.language && a.description == b.description
  {
    if Describe(a) == Describe(b) {
      assert (ItemIdPrefix + a.language)[|ItemIdPrefix|..] == a.language;
      assert (ItemIdPrefix + b.language)[|ItemIdPrefix|..] == b.language;
    }
  }

  /** The list getRepositories returns: one descriptor whose url is the
      reconciled index's path behind the `file://` scheme and whose only
      project style is the devfile style. */
  function Repositories(): (r: seq<RepositoryDescriptor>)
    ensures |r| == 1
    ensures r[0].name == RepositoryName && r[0].description == RepositoryDescription
    ensures StartsWith(r[0].url, FileUrlScheme)
    ensures r[0].url[|FileUrlScheme|..] == ReconciledIndexPath
    ensures r[0].projectStyles == [DevfileProjectStyle]
  {
    assert JsonFileUrl[..|FileUrlScheme|] == FileUrlScheme;
    assert JsonFileUrl[|FileUrlScheme|..] == ReconciledIndexPath;
    [RepositoryDescriptor(RepositoryName, RepositoryDescription, JsonFileUrl, [DevfileProjectStyle])]
  }

  /** The extension's view of its files and of odo's preferences. */
  class Workspace {
    var files: map<string, IndexFile>
    var experimentalEnabled: bool

    constructor (initialFiles: map<string, IndexFile>, experimental: bool)
      ensures files == initialFiles && experimentalEnabled == experimental
    {
      files := initialFiles;
      experimentalEnabled := experimental;
    }

    /** getRepositories. `setExperimental` is the outcome of running
        `odo preference set experimental true -f`; `writeFailure` is `None`
        when writing the reconciled index succeeds and the rejection reason
        when it fails. On success the reconciled index holds the master
        index's templates and the master index is untouched; on any failure
        no file changes. */
    method GetRepositories(setExperimental: Result<string, string>, writeFailure: Option<string>)
      returns (r: Result<seq<RepositoryDescriptor>, ProviderError>)
      modifies this
      ensures setExperimental.Err? ==>
        && r == Err(CommandFailed(SetExperimentalCommand, setExperimental.error))
        && experimentalEnabled == old(experimentalEnabled)
      ensures setExperimental.Ok? ==> experimentalEnabled
      ensures setExperimental.Ok? && MasterIndexPath !in old(files) ==> r == Err(FileMissing(MasterIndexPath))
      ensures setExperimental.Ok? && MasterIndexPath in old(files) && old(files)[MasterIndexPath].Unparsable? ==>
        r == Err(ParseFailed(MasterIndexPath))
      ensures setExperimental.Ok? && MasterIndexPath in old(files) && old(files)[MasterIndexPath].Parsed? && writeFailure.Some? ==>
        r == Err(WriteFailed(ReconciledIndexPath, writeFailure.value))
      ensures r.Err? ==> files == old(files)
      ensures r.Ok? <==>
        setExperimental.Ok? && MasterIndexPath in old(files) && old(files)[MasterIndexPath].Parsed? && writeFailure.None?
      ensures r.Ok? ==>
        && r.value == Repositories()
        && files == old(files)[ReconciledIndexPath := old(files)[MasterIndexPath]]
        && files[ReconciledIndexPath] == files[MasterIndexPath] == old(files)[MasterIndexPath]
    {
      if setExperimental.Err? {
        return Err(CommandFailed(SetExperimentalCommand, setExperimental.error));
      }
      experimentalEnabled := true;
      if MasterIndexPath !in files {
        return Err(FileMissing(MasterIndexPath));
      }
      var master := files[MasterIndexPath];
      if master.Unparsable? {
        return Err(ParseFailed(MasterIndexPath));
      }
      if writeFailure.Some? {
        return Err(WriteFailed(ReconciledIndexPath, writeFailure.value));
      }
      assert MasterIndexPath != ReconciledIndexPath by {
        assert |MasterIndexPath| != |ReconciledIndexPath|;
      }
      files := files[ReconciledIndexPath := Parsed(master.templates)];
      r := Ok(Repositories());
    }

    /** getProjectTypes: the descriptors of the master index's templates;
        nothing changes. */
    method GetProjectTypes() returns (r: Result<seq<ProjectTypeDescriptor>, ProviderError>)
      ensures MasterIndexPath !in files ==> r == Err(FileMissing(MasterIndexPath))
      ensures MasterIndexPath in files && files[MasterIndexPath].Unparsable? ==> r == Err(ParseFailed(MasterIndexPath))
      ensures MasterIndexPath in files && files[MasterIndexPath].Parsed? ==>
        r == Ok(ProjectTypes(files[MasterIndexPath].templates))
    {
      if MasterIndexPath !in files {
        return Err(FileMissing(MasterIndexPath));
      }
      match files[MasterIndexPath]
      case Unparsable => r := Err(ParseFailed(MasterIndexPath));
      case Parsed(master) => r := Ok(ProjectTypes(master));
    }
  }

  /** After getRepositories succeeds, getProjectTypes describes exactly the
      templates now held in the reconciled index. */
  method RepositoriesThenProjectTypes(w: Workspace, setExperimental: Result<string, string>, writeFailure: Option<string>)
    returns (types: Result<seq<ProjectTypeDescriptor>, ProviderError>)
    modifies w
    ensures setExperimental.Ok? && MasterIndexPath in old(w.files) && old(w.files)[MasterIndexPath].Parsed? && writeFailure.None? ==>
      && ReconciledIndexPath in w.files
      && w.files[ReconciledIndexPath].Parsed?
      && types == Ok(ProjectTypes(w.files[ReconciledIndexPath].templates))
  {
    var repos := w.GetRepositories(setExperimental, writeFailure);
    types := w.GetProjectTypes();
  }
}
