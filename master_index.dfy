/** The transform of the master-index generator script (createMasterIndex.js):
    entries of the public devfile registry's index become Codewind templates.
    The registry index carries no repository location, so the location comes
    from a fixed table keyed by the entry's name, and entries the table does
    not know are dropped. */
module MasterIndex {
  import opened Wrappers
  import opened Seqs
  import opened Strings
  import opened Templates

  /** One entry of the registry's devfiles/index.json. */
  datatype RegistryEntry = RegistryEntry(
    name: string,
    displayName: string,
    description: string,
    language: string,
    projectType: string)

  /** The names the location table knows. */
  const KnownNames: set<string> := {"openLiberty", "nodejs", "springBoot"}

  /** The three languages a generated template can have. */
  const TemplateLanguages: set<string> := {"java-spring-boot", "java-openliberty", "nodejs"}

  const ExampleRepositoryPrefix: string := "https://github.com/odo-devfiles/"

  /** getTemplateLocation: the example repository of a known devfile name,
      `None` (the source's `null`) for every other name. */
  function TemplateLocation(name: string): (r: Option<string>)
    ensures r.Some? <==> name in KnownNames
    ensures r.Some? ==> StartsWith(r.value, ExampleRepositoryPrefix) && EndsWith(r.value, "-ex")
    ensures name == "openLiberty" ==> r == Some("https://github.com/odo-devfiles/openliberty-ex")
    ensures name == "nodejs" ==> r == Some("https://github.com/odo-devfiles/nodejs-ex")
    ensures name == "springBoot" ==> r == Some("https://github.com/odo-devfiles/springboot-ex")
  {
    if name == "openLiberty" then Some("https://github.com/odo-devfiles/openliberty-ex")
    else if name == "nodejs" then Some("https://github.com/odo-devfiles/nodejs-ex")
    else if name == "springBoot" then Some("https://github.com/odo-devfiles/springboot-ex")
    else None
  }

  /** getTemplateLanguage: Spring Boot for Java with project type `spring`,
      Open Liberty for any other Java entry, Node.js for everything else. */
  function TemplateLanguage(language: string, projectType: string): (r: string)
    ensures r in TemplateLanguages
    ensures r == "java-spring-boot" <==> language == "java" && projectType == "spring"
    ensures r == "java-openliberty" <==> language == "java" && projectType != "spring"
    ensures r == "nodejs" <==> language != "java"
  {
    if language == "java" then
      if projectType == "spring" then "java-spring-boot" else "java-openliberty"
    else "nodejs"
  }

  predicate HasKnownLocation(e: RegistryEntry) {
    e.name in KnownNames
  }

  /** The record the script's `map` builds for one entry, with its `null`
      location folded into `None`. */
  function CodewindTemplate(e: RegistryEntry): (r: Option<Template>)
    ensures r.Some? <==> HasKnownLocation(e)
    ensures r.Some? ==>
      && IsDevfileTemplate(r.value)
      && r.value.displayName == DisplayNamePrefix + e.displayName
      && r.value.description == e.description
      && r.value.language == TemplateLanguage(e.language, e.projectType)
      && r.value.location == TemplateLocation(e.name).value
  {
    match TemplateLocation(e.name)
    case None => None
    case Some(location) =>
      Some(DevfileTemplate(e.displayName, e.description, TemplateLanguage(e.language, e.projectType), location))
  }

  /** convertToCodewindTemplates: map every entry, then keep the ones with a
      location. */
  function ConvertToCodewindTemplates(index: seq<RegistryEntry>): (r: seq<Template>)
    ensures |r| <= |index|
    ensures forall t :: t in r ==> IsDevfileTemplate(t) && t.language in TemplateLanguages
    ensures forall t :: t in r ==> exists e :: e in index && HasKnownLocation(e) && CodewindTemplate(e) == Some(t)
    ensures forall e :: e in index ==> (HasKnownLocation(e) <==> CodewindTemplate(e).Some? && CodewindTemplate(e).value in r)
  {
    var drafts := Map(CodewindTemplate, index);
    assert forall t :: Some(t) in drafts <==> exists e :: e in index && CodewindTemplate(e) == Some(t) by {
      forall t ensures Some(t) in drafts <==> exists e :: e in index && CodewindTemplate(e) == Some(t) {
        if Some(t) in drafts {
          var i :| 0 <= i < |drafts| && drafts[i] == Some(t);
          assert index[i] in index;
        }
        if exists e :: e in index && CodewindTemplate(e) == Some(t) {
          var e :| e in index && CodewindTemplate(e) == Some(t);
          var i :| 0 <= i < |index| && index[i] == e;
          assert drafts[i] == Some(t);
        }
      }
    }
    FilterSome(drafts)
  }

  /** The output is the input order restricted to the kept entries:
      converting a concatenation converts each part. */
  lemma ConvertAppend(a: seq<RegistryEntry>, b: seq<RegistryEntry>)
    ensures ConvertToCodewindTemplates(a + b) == ConvertToCodewindTemplates(a) + ConvertToCodewindTemplates(b)
  {
    MapAppend(CodewindTemplate, a, b);
    FilterSomeAppend(Map(CodewindTemplate, a), Map(CodewindTemplate, b));
  }

  /** Exactly the entries with a known location produce a template: the
      output is as long as the input filtered by name. */
  lemma {:induction false} ConvertCount(index: seq<RegistryEntry>)
    ensures |ConvertToCodewindTemplates(index)| == |Filter(HasKnownLocation, index)|
  {
    if index != [] {
      ConvertCount(index[1..]);
      assert index == [index[0]] + index[1..];
      ConvertAppend([index[0]], index[1..]);
      assert Map(CodewindTemplate, [index[0]]) == [CodewindTemplate(index[0])];
    }
  }
}
