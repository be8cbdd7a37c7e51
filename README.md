# generator-springloaded: the prompting and download logic

A Dafny model of the deterministic parts of the Yeoman generator in
`generators/app/index.js`. The generator asks the user for project metadata,
then downloads a Spring Initializr project or build descriptor. The model covers:

- **the prompt list** (`prompting()`): Spring Initializr's option catalog
  becomes an ordered list of inquirer questions. First come the text fields,
  then the single-select fields, then the hierarchical multi-select fields,
  each group in catalog order. The fixed `toolchain`, `format` and `extract`
  questions follow. Each question has a message, a default and a `when`
  predicate, written as functions of the saved configuration and the
  answers so far (module `Prompts`). The list is built by pushing inside
  loops, so it is also a method of the `App.Generator` class.
- **the dependency index**: the groups of `catalog.dependencies` flattened
  into one list of `{name: group + " " + member, value: id}` choices, and the
  fuzzy filter the multi-select prompt applies to it (module
  `DependencyIndex`).
- **answer persistence**: after prompting, the answers are written into the
  saved configuration key by key (`App.Generator.StoreAnswers`).
- **download dispatch** (`writing()`): the query options, which of the four
  endpoints is fetched, which file or extraction stream receives the body,
  and whether the post-download build runs with which shell and command
  (module `Download`).

JavaScript values are modelled explicitly: `Js.Value` has `undefined`,
`null`, booleans, strings and string arrays. The module also gives
JavaScript truthiness, `a || b`, property access that yields `undefined`,
and template-literal interpolation. `chalk` colouring is the identity.
Every "saved value takes precedence" rule in the source is a `||`, so the
saved value wins only when it is truthy. The model keeps this: a saved
empty string falls back to the catalog default.

At line 223 the code departs from what the generator evidently means to do.
A build-descriptor run also creates an empty `<name>.zip` file, so it does
not write exactly one file. The model records the code as written and
proves the corrected behaviour (see "## Findings").

## Model

| member | source | states |
|---|---|---|
| `Catalog.ToChoices` | generators/app/index.js:103-108 | the `{name, value: id}` list has one choice per catalog value, in the same order, with the name and id of that value |
| `Catalog.DependencyGroups` | generators/app/index.js:56 | `catalog.dependencies.values` yields the groups of a hierarchical multi-select `dependencies` field, and fails (the source throws) when there is no `dependencies` entry |
| `DependencyIndex.RenameDependencies` | generators/app/index.js:56-63 | the in-place rename at line 59 replaces a hierarchical multi-select `dependencies` field by its groups with every value renamed `group + " " + name`; every other entry and every key stays as it was, and without such a field the catalog is unchanged |
| `DependencyIndex.RenamedValuesGiveIndex` | generators/app/index.js:59-69 | concatenating the renamed groups' values and mapping them to `{name, value: id}` gives exactly the flattened index |
| `DependencyIndex.FlattenLength` | generators/app/index.js:56-69 | the index has as many entries as all groups have values together |
| `DependencyIndex.FlattenAt` | generators/app/index.js:56-69 | value `m` of group `g` is entry number (size of the earlier groups) + `m`, named `group + " " + member` and carrying the member's id unchanged: group order, then member order |
| `DependencyIndex.FlattenCovers` | generators/app/index.js:56-69 | every index entry is the entry of some value of some group, at that value's position |
| `DependencyIndex.FlattenAppend` | generators/app/index.js:64 | the concatenating reduce makes the index of `a + b` the index of `a` followed by the index of `b` |
| `DependencyIndex.FlattenTwoGroups` | generators/app/index.js:56-69 | groups Web/[web Starter] and Data/[jpa JPA] give exactly `Web Starter`→`web`, `Data JPA`→`jpa` |
| `DependencyIndex.Search` | generators/app/index.js:133 | an empty filter returns the whole index |
| `DependencyIndex.SearchIsOrderedFilter` | generators/app/index.js:133 | for a non-empty filter, the result is a subsequence of the index (order kept), every entry in it matches, and it has exactly as many entries as the index has matches |
| `DependencyIndex.SearchIdempotent` | generators/app/index.js:133 | searching a search result with the same filter returns it unchanged |
| `Prompts.PromptListShape` | generators/app/index.js:71-185 | the list has one prompt per text, single-select and multi-select entry, plus 3; its last three prompts are exactly `toolchain`, `format`, `extract` |
| `Prompts.PromptListOrdered` | generators/app/index.js:74-185 | text prompts come before single-select prompts, which come before multi-select prompts, which come before toolchain, format and extract in that order |
| `Prompts.PromptListAt` | generators/app/index.js:74-135 | each handled catalog entry's prompt is at a position fixed by the sizes of the earlier groups and the number of same-kind entries before it, so each group keeps catalog order |
| `Prompts.PromptListFromCatalog` | generators/app/index.js:74-135 | every prompt before the fixed three is the prompt of a catalog entry tagged text, single-select or hierarchical-multi-select; other tags produce nothing |
| `Prompts.PromptListWhen` | generators/app/index.js:90-184 | a prompt is asked unconditionally, except the last one (`extract`), which is asked if and only if the `format` answer is `"project"` |
| `Prompts.PromptListSharedIndex` | generators/app/index.js:116-135 | the `source` of every multi-select prompt searches the one index built from `catalog.dependencies`, whatever its own key |
| `Prompts.RenamingKeepsPrompts` | generators/app/index.js:56-135 | pushing the prompts from the catalog after the line-59 rename gives the same list as pushing them from the original catalog |
| `Prompts.CatalogPromptMessage` | generators/app/index.js:80-82 | a catalog prompt's message is the fixed label of its key (lines 42-54) when there is one, else the key itself; the same rule is used at lines 102 and 123 |
| `Prompts.SelectChoicesCopy` | generators/app/index.js:103-108 | a single-select prompt offers the catalog values as `{name, value: id}`, in catalog order, one for one |
| `Prompts.SavedValueFirst` | generators/app/index.js:83-127 | a truthy saved configuration value is the default of a catalog prompt with that key, whatever its kind |
| `Prompts.CatalogDefaultFallback` | generators/app/index.js:86-126 | with no truthy saved value, a text or single-select prompt falls back on the catalog default, and a multi-select prompt on `[]`. This holds except for `packageName` once a group or artifact id is answered |
| `Prompts.PackageNameFromIds` | generators/app/index.js:84-85 | with no truthy saved `packageName`, and a truthy `groupId` or `artifactId` answer, the default is `${groupId}.${artifactId}` |
| `Prompts.PackageNameExample` | generators/app/index.js:84-85 | answers `com.example` and `demo` with nothing saved give the default `com.example.demo` |
| `Prompts.FixedDefaults` | generators/app/index.js:151-181 | `toolchain` and `format` default to their saved values, and `extract` defaults to the saved `format` value |
| `App.Generator.PushGroup` | generators/app/index.js:74-94 | one filter-and-push pass appends exactly the prompts of one kind's entries, in catalog order |
| `App.Generator.BuildPrompts` | generators/app/index.js:71-185 | the pushed list equals `PromptList` for the generator's saved configuration |
| `App.Generator.Prompting` | generators/app/index.js:40-185 | fails exactly when `catalog.dependencies.values` cannot be read. Otherwise it returns the prompt list over the index built from those groups |
| `App.Generator.StoreAnswers` | generators/app/index.js:189-192 | the answers are kept as `props`; afterwards the configuration holds every answered key with its answer, and every other key is unchanged |
| `Download.QueryOptions` | generators/app/index.js:198-201 | the query holds every answer key plus `format`, `toolchain`, `extract`; those three are `null`, and every other value is unchanged |
| `Download.Out` | generators/app/index.js:223 | the body goes to the extracting stream if and only if `extract` is truthy; otherwise it goes to the file `<name>.zip` |
| `Download.AfterDownload` | generators/app/index.js:203-221 | the build runs if and only if `extract` is truthy and the branch passes `true`. The shell is `cmd` on win32 and `sh` otherwise. The command is `./gradlew` for gradle and `./mvnw` otherwise, with `.bat` on win32, and its argument is `build` for gradle and `package` otherwise |
| `Download.Dispatch` | generators/app/index.js:230-306 | a request is made if and only if the toolchain is gradle or maven and the format is build or project. The request's query is `QueryOptions`, it extracts only for a project with `extract`, and it builds only for a project with `extract` |
| `Download.DescriptorDownload` | generators/app/index.js:230-286 | `(gradle, build)` fetches the `build.gradle` endpoint into `build.gradle` and `(maven, build)` the `pom.xml` endpoint into `pom.xml`; neither runs a build |
| `Download.ProjectDownload` | generators/app/index.js:249-305 | `(gradle or maven, project)` fetches `starter.zip?type=<tool>-project`. The body goes into the extracting stream when `extract` is truthy, else into `<name>.zip`, and then `postDownload(true)` runs |
| `Download.WritingAsWritten` | generators/app/index.js:223-306 | the as-written run dispatches as `Dispatch` and opens `out` first, whatever the branch; a project run or a run matching no endpoint opens only `out`, and a build-descriptor run opens `out` and then its descriptor file |
| `Download.Writing` | generators/app/index.js:223-306 | the corrected run dispatches as `Dispatch` and opens exactly its request's sink, or nothing when no endpoint matches |
| `Download.MavenBuildWritesOnlyPom` | generators/app/index.js:268-286 | with the corrected run, maven and build create exactly one file, `pom.xml`, and no extracting stream |
| `Download.GradleExtractedProjectBuilds` | generators/app/index.js:203-267 | gradle, project and `extract = true`, as written and corrected: the body goes into the extracting stream, which writes the project's files into `.`; no file sink is opened, so no `.zip` is created. The build is `sh ./gradlew build`, or `cmd ./gradlew.bat build` on win32 |
| `Download.AsWrittenOpensStrayZip` | generators/app/index.js:223 | as written, a build-descriptor run without `extract` creates `<name>.zip` and then the descriptor |
| `Download.AsWrittenMavenBuildExample` | generators/app/index.js:223 | as written, maven and build for the app `demo` create `demo.zip` and `pom.xml` |
| `Download.WritingOpensOnlyItsTarget` | generators/app/index.js:223-306 | with the corrected run, a build-descriptor run creates only its descriptor, and a run matching no endpoint creates no file |

## Findings

| source | as written | input that shows it | evidently intended | confidence | as-written member | corrected member |
|---|---|---|---|---|---|---|
| generators/app/index.js:223 | `out` is created before the endpoint dispatch. Without `extract`, `Fs.createWriteStream(<name>.zip)` then creates an empty `<name>.zip` on every run, including build-descriptor runs and runs that match no endpoint | toolchain `maven`, format `build`, name `demo`, no `extract` answer (the `extract` prompt is skipped for `build`): both `demo.zip` and `pom.xml` are created | only the project branches open `out`, so a build-descriptor run writes exactly its descriptor | medium, not executed | `Download.AsWrittenOpensStrayZip` | `Download.WritingOpensOnlyItsTarget` |

## Left out

- The catalog fetch from `https://start.spring.io` and the fallback to the bundled `spring.json` (lines 25-38) are network I/O. The model takes the catalog as a parameter.
- The HTTP requests and their error handlers (lines 231-305) are not modelled. The same goes for the write and unzip streams, the 500 ms delay, the build subprocess (`spawnCommandSync`) and all logging (`yosay`, spinner, `this.log`). The model says which request, sink and command are chosen; it does not say whether a failed request still fires the `close` handler.
- The inquirer runtime (line 187) is not modelled: the order in which questions are shown, how answers accumulate, and that a skipped question leaves no answer. `StoreAnswers` takes the finished answers as given.
- `fuzzy-search`'s matching rule is a library whose rule is unspecified. It is the parameter `matches` of `DependencyIndex.Search`, so the model states only filtering, order and idempotence.
- `Object.entries` lists integer-like keys first in ascending order. The catalog is modelled as the entry list `Object.entries` returns, so that reordering is not modelled.
- A catalog entry whose value is `null` makes `item[1].type` throw; such entries are not modelled. A string, number or boolean value has no `type` and is dropped, as an `Other` entry is. Numeric values in the catalog, configuration or answers are not modelled.
- `optionMapping` is a plain object, so inherited keys such as `constructor` would yield a function, not a label. The model knows only the eleven labels of lines 42-54.
- `Catalog.DependencyGroups`: any `dependencies` field other than a hierarchical multi-select or an empty single-select is taken to fail. In the source, a field of an unknown tag that carries a `values` list of groups would not throw.
- Text and multi-select prompts get their message from a function, and single-select prompts get a plain string. Both give the same text, so the model has one `Message` function.
