# OpenShift template to XL Deploy package: a Dafny model

`OpenshitImporter` (importer.py) turns an OpenShift `List` or `Template` document
into an XL Deploy package. It works in four steps:

- It picks the document's item list: `items` for a `List`, `objects` for a `Template`.
- It keeps the items whose `kind` is one of five managed kinds. Each kept item gets a
  deployable record `{type, name, file}` with lower-cased naming.
- Every string scalar of a kept item is serialised through `str_presenter`. This
  rewrites a `${TOKEN}` placeholder to `{{TOKEN}}` and strips whitespace.
- It renders the records into the `deployit-manifest.xml` template. The archive lists
  the manifest followed by every record's file.

test/match.py is a stand-alone copy of the placeholder rewrite.

The model has six modules:

- `Wrappers` (wrappers.dfy): `Option` and `Result`.
- `Ascii` (ascii.dfy): word characters, ASCII lower-casing, and `str.strip()` with
  Python's whitespace set.
- `Placeholder` (placeholder.dfy): `re.match(r'(.*)\$({\w*})(.*)', data)` and the
  replacement `"{0}{{{1}}}{2}"`.
- `Importer` (importer.dfy): selection and naming, the presenter, manifest rendering,
  the archive entry list and `process`.
- `MatchScript` (match_script.dfy): `method_name` and its two calls as lemmas.
- `ManifestReader` (manifest_reader.dfy): a parser for the manifest text. The
  round-trip lemmas use it as the partner of the renderer.

Modelling decisions:

- **Document shape.** A parsed document is `Document(kind, items, objects)` and an item
  is `Item(kind, metadataName)`. Each field is an `Option`, because the YAML may lack
  it. The other fields of an item never affect a record, so they are not represented.
- **Exceptions.** A key the code reads but the YAML lacks raises `KeyError`, which
  nothing catches. It is modelled as `Err(MissingKey(key))`, and the error of the
  first failing item ends the run. A `yaml.YAMLError` at load time is caught and
  leaves the list empty. It appears as the load outcome `None`.
- **Loops.** The loop of `_deployables` is `Importer.DumpItems`, proved equal to the
  recursive function `Importer.SelectItems`. The branch on the document kind is
  `Importer.CollectDeployables`, proved equal to the function `Importer.Deployables`.
  `zip` is the loop `Importer.Zip`, and `process` is the method `Importer.Process`;
  both state their results directly in their contracts. The presenter, the naming rule
  and the manifest template are pure and are modelled as functions.
- **Constructor fields.** The importer's fields are set once in `__init__` and never
  change. They are parameters here, not a class.
- **The regex, modelled faithfully.**
  - `re.match` is anchored at the start, and `.` stops at the first newline.
  - The greedy `(.*)` makes the last `${word*}` of the first line the one rewritten.
  - The output is the three groups only, so the text after the first newline is lost.
    No precondition excludes newlines; `MatchScript.NewlineVector` shows the loss.
- **ASCII.** `\w` is taken as ASCII letters, digits and `_`. `lower()` is taken as
  ASCII lower-casing.

Notes on the code:

- The record type is `openshift.ResourcesFile`.
- The allow-list has five kinds: `Route`, `DeploymentConfig`, `Service`,
  `PersistentVolumeClaim` and `ImageStream`.
- The file is `work_directory + "/" + name + ".yaml"` with the whole path lower-cased,
  e.g. `./work/service-coolstore-catalog.yaml` for the default work directory.
- The work directory is created (importer.py:24-25) and holds the manifest
  (importer.py:54) as given, but the record paths use it lower-cased. With a capital
  in the work directory, the record paths point into the lower-cased directory, not the
  created one (`Importer.FileUnderWorkDirectory`). Whether writing them succeeds depends
  on the file system, which the model leaves out.
- A placeholder becomes `{{TOKEN}}`: the `$` goes, and the matched `{TOKEN}` gets a
  second pair of braces.

## Model

| member | source | states |
|---|---|---|
| Ascii.IsWordChar | importer.py:63 | No contract of its own: `\w` as ASCII letters, digits and `_`. Placeholder.TokenEnd and Placeholder.Match state how it bounds the token. |
| Ascii.Lower | importer.py:71-72 | `.lower()`: same length, lower-case result. Exactly the ASCII capitals change, each by +32; every other character is kept. |
| Ascii.LowerConcat | importer.py:71-72 | Lowering a concatenation is concatenating the lowered parts. |
| Ascii.LowerIdempotent | importer.py:71-72 | Lowering twice is lowering once. |
| Ascii.IsSpace | importer.py:67 | No contract of its own: the characters `str.isspace()` accepts, which `strip()` removes. Ascii.Strip and Ascii.StripUnique state what is removed. |
| Ascii.Strip | importer.py:67 | `str.strip()`: the result neither starts nor ends with whitespace. It is a slice of the input, and everything cut off on either side is whitespace. |
| Ascii.StripUnique | importer.py:67 | Whitespace + trimmed middle + whitespace strips to exactly the middle, so the contract of Strip determines its result. |
| Ascii.StripTrimmed | importer.py:67 | A string with no surrounding whitespace is unchanged by strip. |
| Placeholder.FirstLine | importer.py:63-64 | What `.` can reach: a prefix of the input with no newline, followed by a newline or by the end of the input. |
| Placeholder.TokenEnd | importer.py:63 | `\w*` takes the longest run of word characters: everything it covers is a word character, and the next character is not. |
| Placeholder.LastPlaceholder | importer.py:63-64 | Backtracking of the greedy `(.*)`: the position found holds a placeholder, and no later position does. `None` means no position holds one. |
| Placeholder.PlaceholderAt | importer.py:63 | No contract of its own: `\$({\w*})` matches at one position of the line. Placeholder.Match and Placeholder.MatchOfParts fix what a match there yields. |
| Placeholder.NoPlaceholder | importer.py:63-65 | No contract of its own: `\$({\w*})` matches nowhere. Placeholder.Match states that exactly then there is no match. |
| Placeholder.GroupsAt | importer.py:63-66 | For a placeholder at `i`: group 1 has length `i`, and group 2 has the `{word*}` shape. `g1 + "$" + g2 + g3` is the line. |
| Placeholder.Match | importer.py:63-65 | No match iff the first line has no `${word*}`. On a match the groups reassemble the first line without the `$`, group 2 is `{word*}`, and no placeholder starts after the chosen one. |
| Placeholder.MatchOfParts | importer.py:63-66 | First line `P + "${" + T + "}" + S`, with T made of word characters and no placeholder in S: the groups are `P`, `{T}` and `S`, and the text after the newline is in none of them. |
| Placeholder.Substitute | importer.py:66 | No contract of its own: the `"{0}{{{1}}}{2}"` format. Placeholder.SubstituteParts states that it doubles the braces. |
| Placeholder.SubstituteParts | importer.py:66 | The replacement of groups `P`, `{T}`, `S` is `P + "{{" + T + "}}" + S`. |
| Placeholder.NoDollarNoMatch | importer.py:63-65 | A first line without `$` never matches. |
| Importer.ResourcesFileType | importer.py:76 | A constant, `openshift.ResourcesFile`. Importer.RecordFor states that every record carries it. |
| Importer.ManifestFileName | importer.py:54 | A constant: the manifest's file name `deployit-manifest.xml` (also its archive name at importer.py:89). Importer.Process states the path built from it and Importer.Zip its archive entry. |
| Importer.ManagedKinds | importer.py:69 | A constant: the five-kind allow-list `Route`, `DeploymentConfig`, `Service`, `PersistentVolumeClaim`, `ImageStream`. |
| Importer.IsManaged | importer.py:69-70 | No contract of its own: the item has a kind on the allow-list. Importer.DumpResource states that exactly such items get a record. |
| Importer.Loadable | importer.py:70-71 | No contract of its own: the item has a kind, and a managed item has a name. Importer.DumpResource states that exactly such items raise no `KeyError`. |
| Importer.RecordFor | importer.py:71-76 | Type `openshift.ResourcesFile`. Name `lower(kind) + "-" + lower(name)`. File `lower(work_directory) + "/" + name + ".yaml"`. Name and file are lower-case, and the name has length \|kind\|+1+\|name\|. |
| Importer.RecordOfLowercase | importer.py:71-72 | With a lower-case work directory and item name, only the kind is lowered in the record. |
| Importer.DumpResource | importer.py:59-79 | Raises iff `kind` is missing, or a managed item has no `metadata.name`; the error names the missing key (`kind` first). Otherwise it returns a record iff the kind is on the five-kind allow-list, and that record is RecordFor of the item. |
| Importer.SelectItems | importer.py:34-42 | No contract of its own: the loop over one list as a recursive function. Its meaning is stated by Importer.SelectItemsSpec and Importer.SelectItemsError. |
| Importer.Deployables | importer.py:27-46 | No contract of its own: the choice of list by document kind. Its meaning is stated by Importer.DeployablesOtherKinds, Importer.DeployablesOfItems and Importer.DeployablesMissingKey. |
| Importer.DumpItems | importer.py:34-42 | The loop with `append`: its result is SelectItems of the list, so records are appended in item order and the first exception ends the loop. |
| Importer.CollectDeployables | importer.py:27-46 | `_deployables`: its result is Deployables of the load outcome. |
| Importer.Accepted | importer.py:69-70 | Reference filter: never longer than the list, and it holds only managed items of the list. |
| Importer.AcceptedConcat | importer.py:34-42 | Filtering commutes with concatenation: source order is kept. |
| Importer.AcceptedCount | importer.py:69-70 | An item is kept exactly as often as it occurs if it is managed, and never otherwise. |
| Importer.AcceptedKeepsManaged | importer.py:69-70 | Every managed item of the list is kept. |
| Importer.RecordsOf | importer.py:76 | No contract of its own beyond its definition: the reference map from accepted items to records. Importer.SelectItemsSpec states that the loop yields exactly this. |
| Importer.SelectItemsSpec | importer.py:34-42 | The loop over one list succeeds iff every item is loadable. Then it yields exactly the records of the accepted items, one each, in order. |
| Importer.SelectItemsError | importer.py:34-42 | A failing loop fails with the exception of the first unloadable item; every item before it is loadable. |
| Importer.DeployablesOtherKinds | importer.py:30-46 | A YAML error, or a kind other than `List` and `Template`, gives an empty list. |
| Importer.DeployablesOfItems | importer.py:33-42 | For a `List` (items) or `Template` (objects): success iff every item is loadable. Then one record per accepted item in order, so no more records than items. |
| Importer.DeployablesMissingKey | importer.py:33-39 | A document without `kind` fails with `KeyError` on `kind`. A `List` without `items` fails on `items`, and a `Template` without `objects` fails on `objects`. |
| Importer.UnmanagedGivesNoRecord | importer.py:69-79 | An item whose kind is off the allow-list is never among the accepted items. |
| Importer.CoolstoreExample | importer.py:27-79 | A `List` of Service `coolstore-catalog` and Secret `x` in `./work` gives exactly the record `service-coolstore-catalog`, file `./work/service-coolstore-catalog.yaml`. |
| Importer.FileUnderWorkDirectory | importer.py:72 | A record file lies under `work_directory + "/"` as given iff the work directory has no capital letter. |
| Importer.MixedCaseWorkDirectory | importer.py:72 | With work directory `./Work`, the file of a Service `a` is not under `./Work/`. |
| Importer.PresenterRewrite | importer.py:63-66 | No contract of its own: the rewrite before stripping. Importer.PresentOfParts and Importer.PresentWithoutPlaceholder state its value for every input. |
| Importer.PresentScalar | importer.py:62-67 | The emitted scalar is stripped: it neither starts nor ends with whitespace. |
| Importer.PresentWithoutPlaceholder | importer.py:64-67 | A scalar with no placeholder on its first line is only stripped. |
| Importer.PresentOfParts | importer.py:62-67 | `P + "${" + T + "}" + S + rest` becomes `P + "{{" + T + "}}" + S` before stripping, with the text from the first newline lost. The emitted scalar is that string stripped. |
| Importer.PresentPaddedImage | importer.py:62-67 | `"  coolstore-catalog:${APP_VERSION} "` is emitted as `coolstore-catalog:{{APP_VERSION}}`. |
| Importer.Element | importer.py:11 | No contract of its own: `deployable_template` filled with a record. ManifestReader.ParseElementOf states that it keeps the three values apart and verbatim. |
| Importer.JoinSpace | importer.py:83 | No contract of its own: `' '.join`. ManifestReader.ParseElementsOf states that the joined elements read back as the records, in order. |
| Importer.ManifestHead | importer.py:13-14 | A constant: the template up to the version value. ManifestReader.ManifestRoundTrip fixes the template's meaning. |
| Importer.ManifestMid | importer.py:14 | A constant: the text between the version and the application values. |
| Importer.ElementsPadding | importer.py:16 | A constant: the seven spaces on each side of `{deployables}`. |
| Importer.ManifestOpen | importer.py:14-16 | A constant: the text between the application value and the elements. |
| Importer.ManifestClose | importer.py:16-18 | A constant: the text after the elements, to the end of the template. |
| Importer.ManifestContent | importer.py:81-84 | No contract of its own: generate_manifest_content. ManifestReader.ManifestRoundTrip states that version, application and records read back verbatim and in order. |
| Importer.Elements | importer.py:82 | No contract of its own beyond its definition: the comprehension over the records. ManifestReader.ParseElementsOf states that the joined elements read back as the records, one each, in order. |
| Importer.Zip | importer.py:86-93 | The entry list is `deployit-manifest.xml` followed by each record's file, in record order. |
| Importer.Process | importer.py:48-57 | Fails iff `_deployables` fails, with the same exception. Otherwise the manifest path is `work_directory + "/deployit-manifest.xml"`. The text is the rendered manifest plus the newline `print` adds, and the entries are as in Zip, over the same records. |
| ManifestReader.ParseElementOf | importer.py:11 | An element rendered from a record whose name and file hold no quote and whose type has no space reads back as that record, with any following text left over. |
| ManifestReader.ParseElementsOf | importer.py:82-83 | The space-joined elements of records with quote-free names and files and space-free types read back as exactly those records, in order. |
| ManifestReader.ManifestRoundTrip | importer.py:81-84 | The manifest of quote-free values reads back as the same version, application and records, all verbatim and in order. |
| ManifestReader.RecordForRenderable | importer.py:71-76 | A work directory, kind and name without `"` give a record with no `"` in its name or file. |
| ManifestReader.LowerKeepsQuoteOut | importer.py:71-72 | Lowering adds no double quote. |
| ManifestReader.ManifestNamesArchivedFiles | importer.py:81-93 | For a quote-free version and application, and records with quote-free names and files and space-free types: the files the manifest lists are the modelled archive entry names after the manifest, in the same order. The names zipfile stores are normalised (see "## Left out"). |
| ManifestReader.DeployablesReadBack | importer.py:27-84 | End to end: a run over quote-free input renders a manifest that reads back as exactly the run's records. |
| MatchScript.MethodName | test/match.py:4-11 | `method_name` returns `None` exactly when the first line holds no `${word*}` (the function falls off its end). |
| MatchScript.MethodNameOfParts | test/match.py:6-11 | On `P + "${" + T + "}" + S + rest` the result is `P + "{{" + T + "}}" + S`: no strip, and no text after the first newline. |
| MatchScript.WholeToken | test/match.py:6-11 | A string that is just `${T}` becomes `{{T}}`. |
| MatchScript.AgreesWithPresenter | test/match.py:6-9 | Same pattern and replacement as str_presenter. On a match the script's result is the presenter's text before stripping. Either way the presenter's output is the script's output (or the input) stripped. |
| MatchScript.ImageTagVector | test/match.py:14 | `"coolstore-catalog:${APP_VERSION}"` becomes `"coolstore-catalog:{{APP_VERSION}}"`. |
| MatchScript.NamespaceVector | test/match.py:15 | `"${IMAGESTREAM_NAMESPACE}"` becomes `"{{IMAGESTREAM_NAMESPACE}}"`. |
| MatchScript.GreedyVector | test/match.py:6-9 | Of two placeholders the later one is rewritten: `"${A}-${B}"` becomes `"${A}-{{B}}"`. |
| MatchScript.NewlineVector | test/match.py:6-9 | `"a${X}b\nc"` becomes `"a{{X}}b"`: the text after the newline is lost. |
| MatchScript.NoStripVector | test/match.py:6-11 | `" ${X} "` becomes `" {{X}} "`: the script keeps surrounding whitespace. |
| MatchScript.PresenterStripsVector | importer.py:62-67 | The presenter turns the same `" ${X} "` into `"{{X}}"`. |
| MatchScript.NonWordVector | test/match.py:6-11 | `"${A-B}"`: a non-word character inside the braces means no match, so `None`. |

## Left out

- File and process side effects are not modelled: `os.makedirs`, writing the resource files and the manifest, and the bytes of `package.dar`. The model returns the manifest's path and text and the archive's entry names.
- The YAML library is not modelled: `safe_load`, `dump` and `add_representer`. A parsed document is a datatype and a load error is `None`. `str_presenter` is modelled as its string transform (`Importer.PresentScalar`), not as the serialisation of whole items.
- A `YAMLError` raised while dumping an item is caught by the handler at importer.py:43, and `_deployables` then returns the records appended before that item. The model has no YAML error inside a dump.
- Documents or items that are not mappings, `items`/`objects` that are not lists, and a `metadata` that is not a mapping are not modelled. Python raises `TypeError` for most of these (an empty YAML file is one case); an empty mapping or empty string under `items`/`objects` gives no records instead.
- Values that are not strings (e.g. a numeric `metadata.name`) are not modelled: kinds and names are strings.
- Importer.DumpResource: a missing `metadata` and a missing `name` under it raise different `KeyError`s in Python. The model reports both as `MissingKey("metadata.name")`.
- The version string comes from `time.time()` and `strftime`. It is a parameter of `Importer.Process`.
- The `print` diagnostics and the module-level invocation at importer.py:96 are not modelled.
- `zip` calls `_deployables` a second time. That only repeats the file writes, and the list is the same, so `Importer.Process` uses one list for both the manifest and the archive.
- Importer.Zip: entry names are the record files verbatim. zipfile normalises archive names (`./work/x.yaml` is stored as `work/x.yaml`), and that normalisation is not modelled.
- ManifestReader.ManifestNamesArchivedFiles: it equates the manifest's `file` values with the modelled entry names. Since zipfile stores the normalised name, with the default work directory the manifest says `./work/x.yaml` while the stored entry is `work/x.yaml`.
- Ascii.Lower: Python's `str.lower()` and `\w` are Unicode-aware; the model lowers only ASCII capitals and treats only ASCII letters, digits and `_` as word characters.
- ManifestReader.ManifestRoundTrip: read-back is proved only for values without a double quote (and types without a space). The template does no escaping, so other values make the manifest ambiguous.
