# codewind-odo-extension: template reconciliation, modelled in Dafny

This project models the logic of the Codewind odo extension that reshapes
records. The extension turns the odo catalog's devfile descriptors into
Codewind template records. It turns the public devfile registry's index into
the master index. It turns template records into the project-type and
repository descriptors that the "new project" wizard reads.

The model has seven modules:

- `Wrappers`: `Option` stands for `null` and `Result` for a promise that
  resolves or rejects.
- `Seqs`: `map`, `filter`, the null-dropping filter and `findIndex`, as
  functions over sequences with their order and membership facts.
- `Strings`: a prefix test, `endsWith`, `includes`, `split('\n')`, its
  inverse `join`, and the first line of a text.
- `Templates`: the template record and the record literal both generators build.
- `Reconcile` (utils.js): the empty-catalog guard, the `Support` filter, the
  git-source index and location, the `.git` stripping, the template record,
  and the order-preserving `Promise.all` followed by dropping nulls.
- `MasterIndex` (createMasterIndex.js): the fixed name → URL table, the
  language classifier, and the map-then-filter over registry entries.
- `Provider` (templatesProvider.js): the one-to-one map to project-type
  descriptors, the constant repository descriptor, and the two entry points as
  methods of a `Workspace` class over an abstract path → index-file store.

The HTTPS GET and the two `yq` runs are inputs, not computations. They are
the function-valued fields of `Reconcile.Tools`, and each one resolves with
its output text or rejects with a reason. The odo command that enables
experimental mode is also an input, and so is the outcome of writing the
reconciled index: both are parameters of `GetRepositories`.

Two facts about the source that a reader may not expect:

- The wizard item id is `"OpenShift/" + language` (templatesProvider.js:65).
- `getProjectTypes` reads the master index, not the reconciled index
  (templatesProvider.js:55).

## Model

| member | source | states |
|---|---|---|
| Seqs.FilterSome | utils.js:81 | dropping nulls keeps exactly the present values, and never lengthens the list |
| Seqs.FilterSomeAppend | utils.js:81 | dropping nulls distributes over concatenation, so survivors keep their relative input order |
| Seqs.FindIndex | utils.js:111-114 | the result is the first index whose element satisfies the test; `None` (the source's -1) exactly when no element does |
| Strings.Contains | utils.js:111 | `includes` holds exactly when the substring occurs at some position |
| Strings.Split | utils.js:109 | `split('\n')` gives at least one piece, no piece holds a newline, and the first piece is the text up to the first newline |
| Strings.JoinSplit | utils.js:109 | joining the pieces of a split with the separator gives back the original text |
| Strings.SplitJoin | utils.js:109 | splitting a join of newline-free pieces gives back the pieces |
| Strings.SplitAtFirst | utils.js:116 | the first piece of a split ends at the first separator |
| Strings.FirstLine | utils.js:116 | `const [location] = stdout.split('\n')` is a newline-free prefix of the output that ends at its end or at its first newline |
| Templates.DevfileTemplate | utils.js:95-102 | the record has the branded display name (removing the prefix gives back the original name) and the fixed project type and style, and it carries the description, language and location through |
| Reconcile.SupportedDevfiles | utils.js:57-60 | a devfile is kept iff `Support` is absent or exactly `true`, and the list never grows |
| Reconcile.UnsupportedDropped | utils.js:57-60 | a `Support` of `false`, or any non-boolean value such as the string `"true"`, removes the devfile |
| Reconcile.SupportedDevfilesAppend | utils.js:57-60 | the support filter keeps relative input order |
| Reconcile.GitSourceIndex | utils.js:109-114 | the index is that of the first type line containing `git`; `None` iff no line contains it |
| Reconcile.LocationFromDevfileYaml | utils.js:107-118 | resolves iff the type query resolves and either no line mentions git or the location query at the first git index resolves; the result is `null` exactly when no line mentions git, and otherwise exactly the first line of the location query's output; a rejected query rejects with that query's reason |
| Reconcile.StripGitSuffix | utils.js:93 | a location ending in `.git` loses exactly those four characters; any other location is unchanged |
| Reconcile.StripGitSuffixInverse | utils.js:93 | stripping undoes one appended `.git`, so `x.git.git` becomes `x.git` |
| Reconcile.TemplateFromLocation | utils.js:89-102 | no template iff the location is null or empty; otherwise the branded record with `language = Name`, `description = Description` and the stripped location |
| Reconcile.CreateTemplateFromDevfile | utils.js:84-105 | the YAML is fetched from registry URL + link; the conversion resolves iff the fetch and the location lookup resolve, and then its result is the template for the resolved location; a rejected fetch or lookup rejects the conversion with that same error |
| Reconcile.ResolveAll | utils.js:80 | `Promise.all` resolves iff every conversion resolves, with one result per devfile in input order; otherwise it rejects with the error of the first rejecting devfile |
| Reconcile.ResolveAllAppend | utils.js:80 | resolving a concatenation is resolving each part and concatenating, and an earlier rejection wins |
| Reconcile.ConvertDevfilesToTemplates | utils.js:79-82 | succeeds iff every conversion succeeds; the output is no longer than the input and holds exactly the templates some input devfile produced; a rejection carries the error of the first rejecting devfile |
| Reconcile.ConvertAppend | utils.js:79-82 | converting a concatenation concatenates the outputs, so templates keep the devfiles' order |
| Reconcile.FetchOdoComponentTemplates | utils.js:52-62 | an empty catalog, and only an empty catalog, gives the "No devfiles returned from the command" error; a non-empty catalog resolves iff every supported devfile's conversion resolves (unsupported ones are never fetched); the output holds exactly the templates of the supported devfiles, each with the devfile shape; a non-empty catalog's rejection is that of the first rejecting supported devfile |
| Reconcile.FetchAppend | utils.js:57-61 | the whole pipeline keeps input order: a catalog's templates are those of its first part followed by those of its second part, and an earlier rejection wins |
| Reconcile.NothingSupported | utils.js:54-61 | a non-empty catalog with nothing supported yields an empty template list, not an error |
| Reconcile.AllSupported | utils.js:57-61 | when every devfile is supported, the filter changes nothing |
| Reconcile.GitLocationScenario | utils.js:84-117 | a devfile whose type listing is `- git` and whose location line is `<repo>.git` gives the template with location `<repo>` |
| MasterIndex.TemplateLocation | createMasterIndex.js:44-55 | a URL exactly for `openLiberty`, `nodejs` and `springBoot` (`openliberty-ex`, `nodejs-ex` and `springboot-ex` under `https://github.com/odo-devfiles/` respectively); `null` for any other name |
| MasterIndex.TemplateLanguage | createMasterIndex.js:64-75 | `java-spring-boot` iff `java`/`spring`, `java-openliberty` iff `java` with another project type, `nodejs` iff not `java`; always one of the three |
| MasterIndex.CodewindTemplate | createMasterIndex.js:33-40 | an entry gets a template iff its name has a location; the template is branded and has the classified language and the table's location |
| MasterIndex.ConvertToCodewindTemplates | createMasterIndex.js:32-42 | the output is no longer than the input; every output has the devfile shape and one of the three languages and comes from a known entry; an input entry appears iff its name is known |
| MasterIndex.ConvertAppend | createMasterIndex.js:32-42 | the output is the input order restricted to the kept entries |
| MasterIndex.ConvertCount | createMasterIndex.js:39-41 | the output has exactly as many templates as the input has entries with a known name |
| Provider.Describe | templatesProvider.js:61-69 | the descriptor has project type `odo`, label `OpenShift component` and one item whose id is `OpenShift/` + language, whose label is `OpenShift ` + language, and which carries the description |
| Provider.ProjectTypes | templatesProvider.js:60-70 | one descriptor per master-index entry, in order, each of type `odo` with label `OpenShift component` and one item whose id is `OpenShift/` + language, whose label is `OpenShift ` + language, and which carries the description |
| Provider.DescribeSameIff | templatesProvider.js:60-70 | two entries get the same descriptor iff they agree on language and description |
| Provider.Repositories | templatesProvider.js:43-48 | one descriptor with the fixed name and description, whose url is `file://` followed by the reconciled index path (templatesProvider.js:27) and whose only project style is `OpenShift Devfiles` |
| Provider.Workspace.GetRepositories | templatesProvider.js:33-50 | a failed odo command, a missing or unparsable master index, or a failed write of the reconciled index rejects and changes no file; otherwise experimental mode is on, the reconciled index holds the master's templates, the master is unchanged, and the fixed descriptor list is returned |
| Provider.Workspace.GetProjectTypes | templatesProvider.js:52-72 | the descriptors of the master index's templates; rejects when the master index is missing or unparsable |
| Provider.RepositoriesThenProjectTypes | templatesProvider.js:33-72 | after a successful `getRepositories`, `getProjectTypes` describes exactly the templates in the reconciled index |

## Left out

- Running processes (`runOdoCommand`, `execAsync` and the `yq` pipelines) is not modelled. These are foreign tools, so their stdout or rejection is an input.
- HTTPS fetching (`asyncHttpRequest`, `getTemplates`) is not modelled. It is network I/O driven by event callbacks; the response body or the rejection is an input.
- JSON text (`JSON.parse`, `JSON.stringify`) is not modelled. Records are datatypes, and an index file is either a parsed template list or `Unparsable`. The 4-space formatting of written files is not modelled.
- The catalog command and the parsing of its output (`fetchOdoComponents`) are not modelled. `FetchOdoComponentTemplates` starts from the parsed `devfileItems` list.
- Reconcile.ResolveAll: `Promise.all` runs the conversions concurrently and rejects with whichever rejection happens first in time. The model rejects with the first rejection in input order.
- Missing properties such as an absent `Registry` are not modelled. In JavaScript they would throw or produce `undefined`; in the model every devfile and registry entry has all of its fields.
- `readJSON`, `writeJSON` and `saveToIndexJson` are not modelled as real filesystem access. The only file effect modelled is the master → reconciled copy in `GetRepositories`, over an abstract map. Concurrent calls racing on that file are not modelled either.
- Provider.Workspace.GetRepositories: a failed write of the reconciled index is modelled as leaving the file store unchanged; a real failed `writeFile` may leave a truncated or partly written file.
- The generator script's `main` and its console logging are not modelled.
- `getProjectTypes` declares `const projectTypes` twice (templatesProvider.js:53 and :60), so the file does not parse as written. The model keeps only the mapping at lines 60-70.
- The test's url expectation `file://./templates/index.json` (templatesProvider.test.js:15) contradicts `JSON_FILE_URL` (templatesProvider.js:27). The model follows `JSON_FILE_URL`.
