/** The reconciliation pipeline of utils.js: the catalog's devfile list is
    checked for emptiness, filtered by its `Support` field, and each devfile
    is turned into a template by fetching its YAML document, asking `yq` for
    the index of its first git source and then for that source's location.

    The HTTP request and the two `yq` runs are not modelled; their outputs
    are supplied by a `Tools` value: each resolves with its output text or
    rejects with a reason. */
module Reconcile {
  import opened Wrappers
  import opened Seqs
  import opened Strings
  import opened Templates

  /** The optional `Support` property of a catalog entry, as JSON. */
  datatype SupportField =
    | Absent
    | Flag(flag: bool)
    | Other(json: string)   // any non-boolean JSON value, such as the string "true"

  /** One entry of the catalog's `devfileItems`. */
  datatype Devfile = Devfile(
    name: string,
    displayName: string,
    description: string,
    support: SupportField,
    link: string,
    registryUrl: string)

  datatype Error =
    | EmptyCatalog(message: string)   // the catalog command listed no devfiles
    | Rejected(reason: string)        // an HTTP request or a `yq` run rejected

  /** What the outside world answers. */
  datatype Tools = Tools(
    // body of an HTTPS GET of the URL (rejects on transport error or a status other than 200)
    httpGet: string -> Result<string, string>,
    // stdout of `yq r - projects[*].source.type` on a YAML document
    querySourceTypes: string -> Result<string, string>,
    // stdout of `yq r - projects[i].source.location` on a YAML document
    querySourceLocation: (string, nat) -> Result<string, string>)

  const GitSuffix: string := ".git"

  /** The support filter's test: the field is absent, or it is exactly the
      boolean `true`. */
  predicate IsSupported(d: Devfile) {
    d.support.Absent? || d.support == Flag(true)
  }

  function SupportedDevfiles(devfiles: seq<Devfile>): (r: seq<Devfile>)
    ensures |r| <= |devfiles|
    ensures forall d :: d in r <==> d in devfiles && IsSupported(d)
  {
    Filter(IsSupported, devfiles)
  }

  /** A `Support` field that is `false`, or that is anything but a boolean
      (the string `"true"` included), removes the devfile. */
  lemma UnsupportedDropped(devfiles: seq<Devfile>, d: Devfile)
    requires d.support == Flag(false) || d.support.Other?
    ensures d !in SupportedDevfiles(devfiles)
  {
  }

  /** The support filter keeps the relative order of the devfiles it keeps. */
  lemma SupportedDevfilesAppend(a: seq<Devfile>, b: seq<Devfile>)
    ensures SupportedDevfiles(a + b) == SupportedDevfiles(a) + SupportedDevfiles(b)
  {
    FilterAppend(IsSupported, a, b);
  }

  predicate MentionsGit(line: string) {
    Contains(line, "git")
  }

  /** The index of the first line of the `yq` type listing that contains
      `git` (so both `git` and `- git` match), or `None` when no line does. */
  function GitSourceIndex(types: string): (r: Option<nat>)
    ensures r.Some? ==> r.value < |Split(types, '\n')| && MentionsGit(Split(types, '\n')[r.value])
    ensures r.Some? ==> forall j :: 0 <= j < r.value ==> !MentionsGit(Split(types, '\n')[j])
    ensures r.None? <==> forall line :: line in Split(types, '\n') ==> !MentionsGit(line)
  {
    FindIndex(MentionsGit, Split(types, '\n'))
  }

  /** getLocationFromDevfileYaml: the first line of the location query for
      the first git source, `None` when there is no git source. */
  function LocationFromDevfileYaml(tools: Tools, yaml: string): (r: Result<Option<string>, Error>)
    ensures r == Ok(None) <==>
      tools.querySourceTypes(yaml).Ok? && GitSourceIndex(tools.querySourceTypes(yaml).value).None?
    ensures r.Ok? && r.value.Some? ==>
      && tools.querySourceTypes(yaml).Ok?
      && GitSourceIndex(tools.querySourceTypes(yaml).value).Some?
      && var i := GitSourceIndex(tools.querySourceTypes(yaml).value).value;
      && tools.querySourceLocation(yaml, i).Ok?
      && r.value.value == FirstLine(tools.querySourceLocation(yaml, i).value)
    ensures r.Ok? <==>
      && tools.querySourceTypes(yaml).Ok?
      && (|| GitSourceIndex(tools.querySourceTypes(yaml).value).None?
          || tools.querySourceLocation(yaml, GitSourceIndex(tools.querySourceTypes(yaml).value).value).Ok?)
    ensures tools.querySourceTypes(yaml).Err? ==> r == Err(Rejected(tools.querySourceTypes(yaml).error))
    ensures tools.querySourceTypes(yaml).Ok? && GitSourceIndex(tools.querySourceTypes(yaml).value).Some? ==>
      var i := GitSourceIndex(tools.querySourceTypes(yaml).value).value;
      tools.querySourceLocation(yaml, i).Err? ==> r == Err(Rejected(tools.querySourceLocation(yaml, i).error))
  {
    match tools.querySourceTypes(yaml)
    case Err(reason) => Err(Rejected(reason))
    case Ok(types) =>
      match GitSourceIndex(types)
      case None => Ok(None)
      case Some(i) =>
        match tools.querySourceLocation(yaml, i)
        case Err(reason) => Err(Rejected(reason))
        case Ok(stdout) => Ok(Some(FirstLine(stdout)))
  }

  /** Removes one trailing `.git`, if there is one. */
  function StripGitSuffix(location: string): (r: string)
    ensures EndsWith(location, GitSuffix) ==> r + GitSuffix == location
    ensures !EndsWith(location, GitSuffix) ==> r == location
  {
    if EndsWith(location, GitSuffix) then location[..|location| - |GitSuffix|] else location
  }

  /** Stripping undoes exactly one appended `.git`: `x.git.git` becomes `x.git`. */
  lemma StripGitSuffixInverse(x: string)
    ensures StripGitSuffix(x + GitSuffix) == x
    ensures StripGitSuffix(x + GitSuffix + GitSuffix) == x + GitSuffix
  {
    assert (x + GitSuffix)[|x + GitSuffix| - |GitSuffix|..] == GitSuffix;
    assert (x + GitSuffix + GitSuffix)[|x + GitSuffix + GitSuffix| - |GitSuffix|..] == GitSuffix;
    assert (x + GitSuffix)[..|x|] == x;
    assert (x + GitSuffix + GitSuffix)[..|x + GitSuffix|] == x + GitSuffix;
  }

  /** The pure tail of createTemplateFromDevfile: no template for a missing
      or empty location, otherwise the branded record with the `.git`-free
      location. */
  function TemplateFromLocation(d: Devfile, gitLocation: Option<string>): (r: Option<Template>)
    ensures r.None? <==> gitLocation.None? || gitLocation.value == ""
    ensures r.Some? ==> IsDevfileTemplate(r.value)
    ensures r.Some? ==>
      && r.value.displayName == DisplayNamePrefix + d.displayName
      && r.value.description == d.description
      && r.value.language == d.name
      && r.value.location == StripGitSuffix(gitLocation.value)
  {
    if gitLocation.None? || gitLocation.value == "" then None
    else Some(DevfileTemplate(d.displayName, d.description, d.name, StripGitSuffix(gitLocation.value)))
  }

  /** createTemplateFromDevfile: fetch `registry URL + link`, resolve the git
      location, build the template. */
  function CreateTemplateFromDevfile(tools: Tools, d: Devfile): (r: Result<Option<Template>, Error>)
    ensures tools.httpGet(d.registryUrl + d.link).Err? ==> r == Err(Rejected(tools.httpGet(d.registryUrl + d.link).error))
    ensures r.Ok? ==>
      && tools.httpGet(d.registryUrl + d.link).Ok?
      && var loc := LocationFromDevfileYaml(tools, tools.httpGet(d.registryUrl + d.link).value);
      && loc.Ok?
      && r.value == TemplateFromLocation(d, loc.value)
    ensures r.Err? ==> r.error.Rejected?
    ensures tools.httpGet(d.registryUrl + d.link).Ok? ==>
      var loc := LocationFromDevfileYaml(tools, tools.httpGet(d.registryUrl + d.link).value);
      loc.Err? ==> r == Err(loc.error)
    ensures r.Ok? <==>
      && tools.httpGet(d.registryUrl + d.link).Ok?
      && LocationFromDevfileYaml(tools, tools.httpGet(d.registryUrl + d.link).value).Ok?
  {
    match tools.httpGet(d.registryUrl + d.link)
    case Err(reason) => Err(Rejected(reason))
    case Ok(yaml) =>
      match LocationFromDevfileYaml(tools, yaml)
      case Err(e) => Err(e)
      case Ok(gitLocation) => Ok(TemplateFromLocation(d, gitLocation))
  }

  /** `Promise.all(devfiles.map(createTemplateFromDevfile))`: resolves with
      one result per devfile in input order, or rejects with the error of
      the first devfile (in input order) whose conversion rejects. */
  function ResolveAll(tools: Tools, devfiles: seq<Devfile>): (r: Result<seq<Option<Template>>, Error>)
    ensures r.Ok? <==> forall i :: 0 <= i < |devfiles| ==> CreateTemplateFromDevfile(tools, devfiles[i]).Ok?
    ensures r.Ok? ==> |r.value| == |devfiles|
    ensures r.Ok? ==> forall i :: 0 <= i < |devfiles| ==> r.value[i] == CreateTemplateFromDevfile(tools, devfiles[i]).value
    ensures r.Err? ==> exists i :: 0 <= i < |devfiles| && CreateTemplateFromDevfile(tools, devfiles[i]) == Err(r.error)
                                   && forall j :: 0 <= j < i ==> CreateTemplateFromDevfile(tools, devfiles[j]).Ok?
  {
    if devfiles == [] then Ok([])
    else
      match CreateTemplateFromDevfile(tools, devfiles[0])
      case Err(e) => Err(e)
      case Ok(t) =>
        match ResolveAll(tools, devfiles[1..])
        case Err(e) =>
          assert forall j :: 1 <= j < |devfiles| ==> devfiles[j] == devfiles[1..][j - 1];
          Err(e)
        case Ok(ts) => Ok([t] + ts)
  }

  /** convertDevfilesToTemplates: resolve every devfile, then drop the ones
      that produced no template. */
  function ConvertDevfilesToTemplates(tools: Tools, devfiles: seq<Devfile>): (r: Result<seq<Template>, Error>)
    ensures r.Ok? <==> forall d :: d in devfiles ==> CreateTemplateFromDevfile(tools, d).Ok?
    ensures r.Ok? ==> |r.value| <= |devfiles|
    ensures r.Ok? ==> forall t :: t in r.value <==> exists d :: d in devfiles && CreateTemplateFromDevfile(tools, d) == Ok(Some(t))
    ensures r.Err? ==> r == Err(ResolveAll(tools, devfiles).error)
  {
    match ResolveAll(tools, devfiles)
    case Err(e) =>
      assert exists d :: d in devfiles && CreateTemplateFromDevfile(tools, d).Err?;
      Err(e)
    case Ok(results) =>
      assert forall t :: Some(t) in results <==> exists d :: d in devfiles && CreateTemplateFromDevfile(tools, d) == Ok(Some(t)) by {
        forall t ensures Some(t) in results <==> exists d :: d in devfiles && CreateTemplateFromDevfile(tools, d) == Ok(Some(t)) {
          if Some(t) in results {
            var i :| 0 <= i < |results| && results[i] == Some(t);
            assert devfiles[i] in devfiles;
          }
          if exists d :: d in devfiles && CreateTemplateFromDevfile(tools, d) == Ok(Some(t)) {
            var d :| d in devfiles && CreateTemplateFromDevfile(tools, d) == Ok(Some(t));
            var i :| 0 <= i < |devfiles| && devfiles[i] == d;
            assert results[i] == Some(t);
          }
        }
      }
      Ok(FilterSome(results))
  }

  /** Converting two lists one after the other is converting their
      concatenation: the templates keep the devfiles' order, and a rejection
      in the first list wins over one in the second. */
  lemma {:induction false} ConvertAppend(tools: Tools, a: seq<Devfile>, b: seq<Devfile>)
    ensures ConvertDevfilesToTemplates(tools, a + b) ==
      match ConvertDevfilesToTemplates(tools, a)
      case Err(e) => Err(e)
      case Ok(ta) =>
        match ConvertDevfilesToTemplates(tools, b)
        case Err(e) => Err(e)
        case Ok(tb) => Ok(ta + tb)
  {
    ResolveAllAppend(tools, a, b);
    var ra, rb := ResolveAll(tools, a), ResolveAll(tools, b);
    if ra.Ok? && rb.Ok? {
      FilterSomeAppend(ra.value, rb.value);
    }
  }

  lemma {:induction false} ResolveAllAppend(tools: Tools, a: seq<Devfile>, b: seq<Devfile>)
    ensures ResolveAll(tools, a + b) ==
      match ResolveAll(tools, a)
      case Err(e) => Err(e)
      case Ok(ra) =>
        match ResolveAll(tools, b)
        case Err(e) => Err(e)
        case Ok(rb) => Ok(ra + rb)
  {
    if a == [] {
      assert a + b == b;
      if ResolveAll(tools, b).Ok? {
        assert [] + ResolveAll(tools, b).value == ResolveAll(tools, b).value;
      }
    } else {
      assert (a + b)[0] == a[0];
      assert (a + b)[1..] == a[1..] + b;
      ResolveAllAppend(tools, a[1..], b);
      var ra, rb := ResolveAll(tools, a[1..]), ResolveAll(tools, b);
      if CreateTemplateFromDevfile(tools, a[0]).Ok? && ra.Ok? && rb.Ok? {
        assert [CreateTemplateFromDevfile(tools, a[0]).value] + (ra.value + rb.value)
            == ([CreateTemplateFromDevfile(tools, a[0]).value] + ra.value) + rb.value;
      }
    }
  }

  /** fetchOdoComponentTemplates, from the parsed output of the catalog
      command onwards. */
  function FetchOdoComponentTemplates(command: string, tools: Tools, devfiles: seq<Devfile>): (r: Result<seq<Template>, Error>)
    ensures r.Err? && r.error.EmptyCatalog? <==> |devfiles| == 0
    ensures |devfiles| == 0 ==> r.error.message == "No devfiles returned from the command: " + command
    ensures r.Ok? <==> |devfiles| > 0 && forall d :: d in devfiles && IsSupported(d) ==> CreateTemplateFromDevfile(tools, d).Ok?
    ensures r.Ok? ==> |r.value| <= |devfiles|
    ensures r.Ok? ==> forall t :: t in r.value ==>
      && IsDevfileTemplate(t)
      && exists d :: d in devfiles && IsSupported(d) && CreateTemplateFromDevfile(tools, d) == Ok(Some(t))
    ensures r.Ok? ==> forall d, t :: d in devfiles && IsSupported(d) && CreateTemplateFromDevfile(tools, d) == Ok(Some(t)) ==> t in r.value
    ensures |devfiles| > 0 && r.Err? ==> r == Err(ResolveAll(tools, SupportedDevfiles(devfiles)).error)
  {
    if |devfiles| == 0 then Err(EmptyCatalog("No devfiles returned from the command: " + command))
    else ConvertDevfilesToTemplates(tools, SupportedDevfiles(devfiles))
  }

  /** The whole pipeline keeps input order: the templates of a catalog are
      those of its first part followed by those of its second part, and a
      rejection in the first part wins. */
  lemma FetchAppend(command: string, tools: Tools, a: seq<Devfile>, b: seq<Devfile>)
    requires |a + b| > 0
    ensures FetchOdoComponentTemplates(command, tools, a + b) ==
      match ConvertDevfilesToTemplates(tools, SupportedDevfiles(a))
      case Err(e) => Err(e)
      case Ok(ta) =>
        match ConvertDevfilesToTemplates(tools, SupportedDevfiles(b))
        case Err(e) => Err(e)
        case Ok(tb) => Ok(ta + tb)
  {
    SupportedDevfilesAppend(a, b);
    ConvertAppend(tools, SupportedDevfiles(a), SupportedDevfiles(b));
  }

  /** A non-empty catalog in which nothing is supported yields no templates
      and no error. */
  lemma NothingSupported(command: string, tools: Tools, devfiles: seq<Devfile>)
    requires |devfiles| > 0
    requires forall d :: d in devfiles ==> !IsSupported(d)
    ensures FetchOdoComponentTemplates(command, tools, devfiles) == Ok([])
  {
    FilterNone(IsSupported, devfiles);
  }

  /** A catalog of supported devfiles is converted as a whole. */
  lemma AllSupported(command: string, tools: Tools, devfiles: seq<Devfile>)
    requires |devfiles| > 0
    requires forall d :: d in devfiles ==> IsSupported(d)
    ensures FetchOdoComponentTemplates(command, tools, devfiles) == ConvertDevfilesToTemplates(tools, devfiles)
  {
    FilterAll(IsSupported, devfiles);
  }

  /** The catalog's Node.js example: a YAML whose first source is git and
      whose location ends in `.git` gives a template whose location has the
      suffix removed. */
  lemma {:induction false} GitLocationScenario(tools: Tools, d: Devfile, yaml: string, repo: string, rest: string)
    requires tools.httpGet(d.registryUrl + d.link) == Ok(yaml)
    requires tools.querySourceTypes(yaml) == Ok("- git\n")
    requires tools.querySourceLocation(yaml, 0) == Ok(repo + GitSuffix + "\n" + rest)
    requires '\n' !in repo
    ensures CreateTemplateFromDevfile(tools, d) ==
      Ok(Some(Template(DisplayNamePrefix + d.displayName, d.description, d.name,
                       DevfileProjectType, DevfileProjectStyle, repo)))
  {
    SplitAtFirst("- git", "", '\n');
    assert "- git" + ['\n'] + "" == "- git\n";
    assert OccursAt("- git", "git", 2);
    assert repo + GitSuffix + "\n" + rest == (repo + GitSuffix) + ['\n'] + rest;
    SplitAtFirst(repo + GitSuffix, rest, '\n');
    StripGitSuffixInverse(repo);
  }
}
