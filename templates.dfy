/** The Codewind template record, shared by the reconciliation pipeline, the
    master-index generator and the query facade. */
module Templates {
  import opened Strings

  /** Brand put in front of every devfile's display name. */
  const DisplayNamePrefix: string := "OpenShift Devfiles "
  /** Project type tagged on every devfile template. */
  const DevfileProjectType: string := "odo-devfile"
  /** Project style tagged on every devfile template. */
  const DevfileProjectStyle: string := "OpenShift Devfiles"

  datatype Template = Template(
    displayName: string,
    description: string,
    language: string,
    projectType: string,
    projectStyle: string,
    location: string)

  /** The shape every generated template has: the branded display name and
      the fixed project type and style. */
  predicate IsDevfileTemplate(t: Template) {
    && StartsWith(t.displayName, DisplayNamePrefix)
    && t.projectType == DevfileProjectType
    && t.projectStyle == DevfileProjectStyle
  }

  /** The template record both generators build for a catalog entry. */
  function DevfileTemplate(displayName: string, description: string, language: string, location: string): (t: Template)
    ensures IsDevfileTemplate(t)
    ensures t.displayName[|DisplayNamePrefix|..] == displayName
    ensures t.description == description && t.language == language && t.location == location
  {
    var t := Template(DisplayNamePrefix + displayName, description, language,
                      DevfileProjectType, DevfileProjectStyle, location);
    assert t.displayName[..|DisplayNamePrefix|] == DisplayNamePrefix;
    t
  }
}
