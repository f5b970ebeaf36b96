/**
 * The OpenShift-to-XL-Deploy packager (class OpenshitImporter of importer.py).
 *
 * A parsed `List` or `Template` document contributes its `items` or `objects`; every
 * item whose kind is one of five managed kinds becomes a deployable record
 * `{type, name, file}`; the records are rendered into the XL Deploy manifest and the
 * archive lists the manifest followed by each record's file.
 *
 * The importer's fields (application name, input path, work directory) are never
 * changed after construction, so they appear here as parameters.
 */
module Importer {
  import opened Wrappers
  import opened Ascii
  import Placeholder

  // ---------------------------------------------------------------------------
  // Data model
  // ---------------------------------------------------------------------------

  /** One resource of the document: its `kind` and its `metadata.name`, either of which may be missing. */
  datatype Item = Item(kind: Option<string>, metadataName: Option<string>)

  /** The parsed YAML document: its `kind` and the `items` and `objects` lists, if present. */
  datatype Document = Document(kind: Option<string>, items: Option<seq<Item>>, objects: Option<seq<Item>>)

  /** The exception that ends a run: a `KeyError` for a key the code reads but the YAML lacks. */
  datatype Failure = MissingKey(key: string)

  /** A deployable: the dict `{'type': .., 'name': .., 'file': ..}` that dump_resource returns. */
  datatype Record = Record(recordType: string, name: string, file: string)

  /** What one run produces: the manifest file's path and text, and the archive's entry names. */
  datatype Package = Package(manifestPath: string, manifestText: string, entries: seq<string>)

  const ResourcesFileType: string := "openshift.ResourcesFile"

  /** The allow-list `managed_resources`. */
  const ManagedKinds: seq<string> := ["Route", "DeploymentConfig", "Service", "PersistentVolumeClaim", "ImageStream"]

  const ManifestFileName: string := "deployit-manifest.xml"

  // ---------------------------------------------------------------------------
  // Selection and naming (dump_resource, _deployables)
  // ---------------------------------------------------------------------------

  /** An item dump_resource accepts: its kind is present and on the allow-list. */
  predicate IsManaged(item: Item) {
    item.kind.Some? && item.kind.value in ManagedKinds
  }

  /** An item dump_resource handles without raising: its kind is present, and a managed item has a name. */
  predicate Loadable(item: Item) {
    item.kind.Some? && (item.kind.value in ManagedKinds ==> item.metadataName.Some?)
  }

  /**
   * The record of an accepted item. Its name is `kind-name` lower-cased and its file
   * is the lower-cased `work_directory/name.yaml`; since lowering distributes over
   * concatenation, the file is the lower-cased work directory, a slash, the name and
   * `.yaml`.
   */
  function RecordFor(workDirectory: string, kind: string, metadataName: string): (r: Record)
    ensures r.recordType == ResourcesFileType
    ensures r.name == Lower(kind) + "-" + Lower(metadataName)
    ensures r.file == Lower(workDirectory) + "/" + r.name + ".yaml"
    ensures IsLowercase(r.name) && IsLowercase(r.file)
    ensures |r.name| == |kind| + 1 + |metadataName|
  {
    var name := Lower(kind + "-" + metadataName);
    var filename := Lower(workDirectory + "/" + name + ".yaml");
    LowerJoin(kind, "-", metadataName);
    LowerJoin(workDirectory, "/", name + ".yaml");
    LowerConcat(name, ".yaml");
    LowerOfLowercase(name);
    LowerOfLowercase(".yaml");
    assert workDirectory + "/" + name + ".yaml" == workDirectory + "/" + (name + ".yaml");
    Record(ResourcesFileType, name, filename)
  }

  /** Lowering `a + sep + b` for a separator that has no upper-case letter. */
  lemma LowerJoin(a: string, sep: string, b: string)
    requires IsLowercase(sep)
    ensures Lower(a + sep + b) == Lower(a) + sep + Lower(b)
  {
    LowerConcat(a + sep, b);
    LowerConcat(a, sep);
    LowerOfLowercase(sep);
  }

  /**
   * dump_resource without the file write: `None` for a kind off the allow-list,
   * the record for a managed one, and a `KeyError` when `kind`, or the name of a
   * managed item, is missing.
   */
  function DumpResource(workDirectory: string, item: Item): (r: Result<Option<Record>, Failure>)
    ensures r.Err? <==> !Loadable(item)
    ensures r.Err? ==> r.error == (if item.kind.None? then MissingKey("kind") else MissingKey("metadata.name"))
    ensures r.Ok? ==> (r.value.Some? <==> IsManaged(item))
    ensures r.Ok? && r.value.Some? ==> r.value.value == RecordFor(workDirectory, item.kind.value, item.metadataName.value)
  {
    match item.kind
    case None => Err(MissingKey("kind"))
    case Some(kind) =>
      if kind in ManagedKinds then
        match item.metadataName
        case None => Err(MissingKey("metadata.name"))
        case Some(name) => Ok(Some(RecordFor(workDirectory, kind, name)))
      else
        Ok(None)
  }

  /** Put records already collected in front of the outcome of the remaining items. */
  function Prepend(done: seq<Record>, r: Result<seq<Record>, Failure>): Result<seq<Record>, Failure> {
    match r
    case Ok(rest) => Ok(done + rest)
    case Err(e) => Err(e)
  }

  /** The loop of _deployables over one item list: dump each item in turn, keep the records, stop at the first exception. */
  function SelectItems(workDirectory: string, items: seq<Item>): Result<seq<Record>, Failure> {
    if items == [] then Ok([])
    else
      match DumpResource(workDirectory, items[0])
      case Err(e) => Err(e)
      case Ok(None) => SelectItems(workDirectory, items[1..])
      case Ok(Some(r)) => Prepend([r], SelectItems(workDirectory, items[1..]))
  }

  /**
   * _deployables on a load outcome (`None` is a `YAMLError`, which is caught and
   * leaves the list empty): a `List` contributes its `items`, a `Template` its
   * `objects`, any other kind nothing.
   */
  function Deployables(workDirectory: string, loaded: Option<Document>): Result<seq<Record>, Failure> {
    match loaded
    case None => Ok([])
    case Some(doc) =>
      match doc.kind
      case None => Err(MissingKey("kind"))
      case Some(kind) =>
        if kind == "List" then
          (match doc.items
           case None => Err(MissingKey("items"))
           case Some(items) => SelectItems(workDirectory, items))
        else if kind == "Template" then
          (match doc.objects
           case None => Err(MissingKey("objects"))
           case Some(objects) => SelectItems(workDirectory, objects))
        else
          Ok([])
  }

  /** The loop of _deployables: append every record dump_resource returns, in order. */
  method DumpItems(workDirectory: string, items: seq<Item>) returns (result: Result<seq<Record>, Failure>)
    ensures result == SelectItems(workDirectory, items)
  {
    var deployables: seq<Record> := [];
    var i := 0;
    assert items[i..] == items;
    if SelectItems(workDirectory, items).Ok? {
      assert deployables + SelectItems(workDirectory, items).value == SelectItems(workDirectory, items).value;
    }
    while i < |items|
      invariant 0 <= i <= |items|
      invariant SelectItems(workDirectory, items) == Prepend(deployables, SelectItems(workDirectory, items[i..]))
    {
      assert items[i..][0] == items[i] && items[i..][1..] == items[i + 1..];
      var deployable := DumpResource(workDirectory, items[i]);
      if deployable.Err? {
        return Err(deployable.error);
      }
      if deployable.value.Some? {
        var record := deployable.value.value;
        var rest := SelectItems(workDirectory, items[i + 1..]);
        if rest.Ok? {
          assert (deployables + [record]) + rest.value == deployables + ([record] + rest.value);
        }
        deployables := deployables + [record];
      }
      i := i + 1;
    }
    assert items[i..] == [];
    assert deployables + [] == deployables;
    return Ok(deployables);
  }

  /** _deployables: pick the list by the document's kind and run the loop over it. */
  method CollectDeployables(workDirectory: string, loaded: Option<Document>) returns (result: Result<seq<Record>, Failure>)
    ensures result == Deployables(workDirectory, loaded)
  {
    if loaded.None? {
      return Ok([]);
    }
    var data := loaded.value;
    if data.kind.None? {
      return Err(MissingKey("kind"));
    }
    result := Ok([]);
    if data.kind.value == "List" {
      if data.items.None? {
        return Err(MissingKey("items"));
      }
      result := DumpItems(workDirectory, data.items.value);
    }
    if data.kind.value == "Template" {
      if data.objects.None? {
        return Err(MissingKey("objects"));
      }
      result := DumpItems(workDirectory, data.objects.value);
    }
  }

  // ---------------------------------------------------------------------------
  // What the selection keeps: a reference filter and the lemmas tying it to the loop
  // ---------------------------------------------------------------------------

  /** The managed items of a list, in their original order. */
  function Accepted(items: seq<Item>): (r: seq<Item>)
    ensures |r| <= |items|
    ensures forall x :: x in r ==> x in items && IsManaged(x)
  {
    if items == [] then []
    else (if IsManaged(items[0]) then [items[0]] else []) + Accepted(items[1..])
  }

  /** Filtering commutes with concatenation: the selection keeps the source order. */
  lemma {:induction false} AcceptedConcat(a: seq<Item>, b: seq<Item>)
    ensures Accepted(a + b) == Accepted(a) + Accepted(b)
    decreases |a|
  {
    if a == [] {
      assert a + b == b;
    } else {
      assert (a + b)[0] == a[0] && (a + b)[1..] == a[1..] + b;
      AcceptedConcat(a[1..], b);
    }
  }

  /** An item is kept exactly as often as it occurs, if managed, and never otherwise. */
  lemma {:induction false} AcceptedCount(items: seq<Item>, x: Item)
    ensures multiset(Accepted(items))[x] == if IsManaged(x) then multiset(items)[x] else 0
    decreases |items|
  {
    if items != [] {
      AcceptedCount(items[1..], x);
      assert items == [items[0]] + items[1..];
    }
  }

  /** Every managed item of the list survives the filter. */
  lemma AcceptedKeepsManaged(items: seq<Item>, x: Item)
    requires x in items && IsManaged(x)
    ensures x in Accepted(items)
  {
    AcceptedCount(items, x);
    assert multiset(items)[x] > 0;
  }

  /** The record of an item the loop accepted. */
  function RecordOf(workDirectory: string, item: Item): Record
    requires IsManaged(item) && item.metadataName.Some?
  {
    RecordFor(workDirectory, item.kind.value, item.metadataName.value)
  }

  /** Every item of the list has a name. */
  predicate AllNamed(items: seq<Item>) {
    forall j :: 0 <= j < |items| ==> items[j].metadataName.Some?
  }

  /** The records of a list of named managed items, one per item, in order. */
  function RecordsOf(workDirectory: string, items: seq<Item>): (rs: seq<Record>)
    requires forall j :: 0 <= j < |items| ==> IsManaged(items[j]) && items[j].metadataName.Some?
    ensures |rs| == |items|
    ensures forall j :: 0 <= j < |items| ==> rs[j] == RecordOf(workDirectory, items[j])
  {
    seq(|items|, j requires 0 <= j < |items| => RecordOf(workDirectory, items[j]))
  }

  /**
   * The loop over one list succeeds exactly when every item is loadable, and then
   * yields one record per managed item, in order.
   */
  lemma {:induction false} SelectItemsSpec(workDirectory: string, items: seq<Item>)
    ensures SelectItems(workDirectory, items).Ok? <==> forall j :: 0 <= j < |items| ==> Loadable(items[j])
    ensures SelectItems(workDirectory, items).Ok? ==>
              AllNamed(Accepted(items))
              && SelectItems(workDirectory, items).value == RecordsOf(workDirectory, Accepted(items))
    decreases |items|
  {
    if items != [] {
      var tail := items[1..];
      SelectItemsSpec(workDirectory, tail);
      assert forall j :: 0 <= j < |tail| ==> tail[j] == items[j + 1];
      assert (forall j :: 0 <= j < |items| ==> Loadable(items[j]))
         <==> Loadable(items[0]) && forall j :: 0 <= j < |tail| ==> Loadable(tail[j]);
      var here := if IsManaged(items[0]) then [items[0]] else [];
      assert Accepted(items) == here + Accepted(tail);
      if SelectItems(workDirectory, items).Ok? {
        var rs := SelectItems(workDirectory, tail).value;
        if IsManaged(items[0]) {
          assert SelectItems(workDirectory, items).value == [RecordOf(workDirectory, items[0])] + rs;
        } else {
          assert SelectItems(workDirectory, items).value == rs;
        }
      }
    }
  }

  /** A failing loop fails with the exception of its first unloadable item. */
  lemma {:induction false} SelectItemsError(workDirectory: string, items: seq<Item>)
    requires SelectItems(workDirectory, items).Err?
    ensures exists j :: 0 <= j < |items| && !Loadable(items[j])
                        && (forall k :: 0 <= k < j ==> Loadable(items[k]))
                        && DumpResource(workDirectory, items[j]) == Err(SelectItems(workDirectory, items).error)
    decreases |items|
  {
    if DumpResource(workDirectory, items[0]).Err? {
      assert !Loadable(items[0]);
    } else {
      var tail := items[1..];
      assert SelectItems(workDirectory, tail).Err?;
      assert SelectItems(workDirectory, tail).error == SelectItems(workDirectory, items).error;
      SelectItemsError(workDirectory, tail);
      var j :| 0 <= j < |tail| && !Loadable(tail[j])
               && (forall k :: 0 <= k < j ==> Loadable(tail[k]))
               && DumpResource(workDirectory, tail[j]) == Err(SelectItems(workDirectory, tail).error);
      assert items[j + 1] == tail[j];
      assert forall k :: 0 <= k < j + 1 ==> Loadable(items[k]) by {
        forall k | 0 <= k < j + 1 ensures Loadable(items[k]) {
          if k > 0 { assert items[k] == tail[k - 1]; }
        }
      }
    }
  }

  /** A parse error, or a kind other than `List` and `Template`, gives no deployables. */
  lemma DeployablesOtherKinds(workDirectory: string, loaded: Option<Document>)
    requires loaded.None? || (loaded.value.kind.Some? && loaded.value.kind.value != "List" && loaded.value.kind.value != "Template")
    ensures Deployables(workDirectory, loaded) == Ok([])
  {
  }

  /**
   * The `KeyError`s of the dispatch itself: a document without `kind`, a `List`
   * without `items` and a `Template` without `objects`.
   */
  lemma DeployablesMissingKey(workDirectory: string, doc: Document)
    ensures doc.kind.None? ==> Deployables(workDirectory, Some(doc)) == Err(MissingKey("kind"))
    ensures doc.kind == Some("List") && doc.items.None? ==> Deployables(workDirectory, Some(doc)) == Err(MissingKey("items"))
    ensures doc.kind == Some("Template") && doc.objects.None? ==> Deployables(workDirectory, Some(doc)) == Err(MissingKey("objects"))
  {
  }

  /**
   * For a `List` (its `items`) or a `Template` (its `objects`): the run succeeds
   * exactly when every item is loadable, and then the records are those of the
   * managed items, one each and in order, so there are no more records than items.
   */
  lemma DeployablesOfItems(workDirectory: string, doc: Document, items: seq<Item>)
    requires (doc.kind == Some("List") && doc.items == Some(items))
          || (doc.kind == Some("Template") && doc.objects == Some(items))
    ensures Deployables(workDirectory, Some(doc)).Ok? <==> forall j :: 0 <= j < |items| ==> Loadable(items[j])
    ensures Deployables(workDirectory, Some(doc)).Ok? ==>
              AllNamed(Accepted(items))
              && Deployables(workDirectory, Some(doc)).value == RecordsOf(workDirectory, Accepted(items))
              && |Deployables(workDirectory, Some(doc)).value| <= |items|
  {
    assert SelectItems(workDirectory, items) == Deployables(workDirectory, Some(doc));
    SelectItemsSpec(workDirectory, items);
  }

  /** No record is produced for an item of a kind off the allow-list, whatever else the list holds. */
  lemma UnmanagedGivesNoRecord(items: seq<Item>, x: Item)
    requires x.kind.Some? && x.kind.value !in ManagedKinds
    ensures x !in Accepted(items)
  {
    AcceptedCount(items, x);
  }

  /**
   * The record's file lies under the work directory as given (the directory that is
   * created and that holds the manifest) exactly when that directory has no capital:
   * the file path lowers the work directory, the other two uses of it do not.
   */
  lemma {:induction false} FileUnderWorkDirectory(workDirectory: string, kind: string, metadataName: string)
    ensures workDirectory + "/" <= RecordFor(workDirectory, kind, metadataName).file <==> IsLowercase(workDirectory)
  {
    var file := RecordFor(workDirectory, kind, metadataName).file;
    var lowered := Lower(workDirectory);
    assert file[..|workDirectory|] == lowered;
    if IsLowercase(workDirectory) {
      LowerOfLowercase(workDirectory);
      assert file[..|workDirectory| + 1] == workDirectory + "/";
    } else {
      assert lowered != workDirectory;
    }
  }

  /** A capital in the work directory: `./Work` gives the file `./work/service-a.yaml`, outside `./Work/`. */
  lemma MixedCaseWorkDirectory()
    ensures !("./Work/" <= RecordFor("./Work", "Service", "a").file)
  {
    var wd := "./Work";
    assert wd[2] == 'W';
    FileUnderWorkDirectory(wd, "Service", "a");
  }

  /**
   * A `List` holding a Service `coolstore-catalog` and a Secret `x`, with the default
   * work directory: one record, `service-coolstore-catalog`, and nothing for the Secret.
   */
  lemma CoolstoreExample()
    ensures Deployables("./work", Some(Document(Some("List"), Some([Item(Some("Service"), Some("coolstore-catalog")), Item(Some("Secret"), Some("x"))]), None)))
         == Ok([Record("openshift.ResourcesFile", "service-coolstore-catalog", "./work/service-coolstore-catalog.yaml")])
  {
    var service := Item(Some("Service"), Some("coolstore-catalog"));
    var secret := Item(Some("Secret"), Some("x"));
    var r := Record("openshift.ResourcesFile", "service-coolstore-catalog", "./work/service-coolstore-catalog.yaml");
    CoolstoreRecord(r);
    CoolstoreSelection(service, secret, r);
  }

  // The literals enter as parameters fixed by `requires`: written inline, the solver unfolds them and runs out of resource.
  lemma CoolstoreRecord(r: Record)
    requires r == Record("openshift.ResourcesFile", "service-coolstore-catalog", "./work/service-coolstore-catalog.yaml")
    ensures RecordFor("./work", "Service", "coolstore-catalog") == r
  {
    CoolstoreLiterals("./work", "Service", "service", "coolstore-catalog");
    RecordOfLowercase("./work", "Service", "service", "coolstore-catalog");
  }

  /** With a lower-case work directory and name, only the kind is lowered. */
  lemma RecordOfLowercase(workDirectory: string, kind: string, lowerKind: string, metadataName: string)
    requires IsLowercase(workDirectory) && IsLowercase(metadataName) && Lower(kind) == lowerKind
    ensures RecordFor(workDirectory, kind, metadataName)
         == Record(ResourcesFileType, lowerKind + "-" + metadataName, workDirectory + "/" + (lowerKind + "-" + metadataName) + ".yaml")
  {
    LowerOfLowercase(workDirectory);
    LowerOfLowercase(metadataName);
  }

  // The literals enter as parameters fixed by `requires`: written inline, the solver unfolds them and runs out of resource.
  lemma CoolstoreLiterals(wd: string, kind: string, lowerKind: string, name: string)
    requires wd == "./work" && kind == "Service" && lowerKind == "service" && name == "coolstore-catalog"
    ensures IsLowercase(wd) && IsLowercase(name) && Lower(kind) == lowerKind
    ensures lowerKind + "-" + name == "service-coolstore-catalog"
    ensures wd + "/" + (lowerKind + "-" + name) + ".yaml" == "./work/service-coolstore-catalog.yaml"
    ensures ResourcesFileType == "openshift.ResourcesFile"
  {
    assert Lower(kind)[0] == 's';
    assert Lower(kind) == lowerKind;
  }

  // The literals enter as parameters fixed by `requires`: written inline, the solver unfolds them and runs out of resource.
  lemma CoolstoreSelection(service: Item, secret: Item, r: Record)
    requires service == Item(Some("Service"), Some("coolstore-catalog")) && secret == Item(Some("Secret"), Some("x"))
    requires RecordFor("./work", "Service", "coolstore-catalog") == r
    ensures SelectItems("./work", [service, secret]) == Ok([r])
  {
    assert "Service" in ManagedKinds;
    assert "Secret" !in ManagedKinds;
    assert SelectItems("./work", [secret]) == Ok([]);
    assert DumpResource("./work", service) == Ok(Some(r));
    var items := [service, secret];
    assert items[0] == service && items[1..] == [secret];
    assert [r] + [] == [r];
  }

  // ---------------------------------------------------------------------------
  // The string-scalar presenter (str_presenter)
  // ---------------------------------------------------------------------------

  /** The text str_presenter has before stripping: the placeholder rewrite when the pattern matches, the scalar itself otherwise. */
  function PresenterRewrite(data: string): string {
    match Placeholder.Match(data)
    case None => data
    case Some(g) => Placeholder.Substitute(g)
  }

  /** The scalar str_presenter emits: the rewrite, stripped of surrounding whitespace. */
  function PresentScalar(data: string): (r: string)
    ensures IsTrimmed(r)
  {
    Strip(PresenterRewrite(data))
  }

  /** A scalar whose first line holds no placeholder is only stripped. */
  lemma PresentWithoutPlaceholder(data: string)
    requires Placeholder.NoPlaceholder(Placeholder.FirstLine(data))
    ensures PresenterRewrite(data) == data
    ensures PresentScalar(data) == Strip(data)
  {
  }

  /**
   * The presenter rewrites the last placeholder of the first line, `${token}`
   * becoming `{{token}}`, drops everything from the first newline on, and strips.
   */
  lemma PresentOfParts(prefix: string, token: string, suffix: string, rest: string)
    requires '\n' !in prefix + "${" + token + "}" + suffix
    requires AllWord(token)
    requires Placeholder.NoPlaceholder(suffix)
    requires rest == [] || rest[0] == '\n'
    ensures PresenterRewrite(prefix + "${" + token + "}" + suffix + rest) == prefix + "{{" + token + "}}" + suffix
    ensures PresentScalar(prefix + "${" + token + "}" + suffix + rest) == Strip(prefix + "{{" + token + "}}" + suffix)
  {
    Placeholder.MatchOfParts(prefix, token, suffix, rest);
    Placeholder.SubstituteParts(prefix, token, suffix);
  }

  /** A padded image reference: the placeholder is rewritten and the padding removed. */
  lemma PresentPaddedImage()
    ensures PresentScalar("  coolstore-catalog:${APP_VERSION} ") == "coolstore-catalog:{{APP_VERSION}}"
  {
    PaddedImageRewrite("  coolstore-catalog:${APP_VERSION} ", "  coolstore-catalog:", "APP_VERSION", " ");
    PaddedImageStrip("  coolstore-catalog:" + "{{" + "APP_VERSION" + "}}" + " ", "coolstore-catalog:{{APP_VERSION}}");
  }

  // The literals enter as parameters fixed by `requires`: written inline, the solver unfolds them and runs out of resource.
  lemma PaddedImageRewrite(data: string, prefix: string, token: string, suffix: string)
    requires prefix == "  coolstore-catalog:" && token == "APP_VERSION" && suffix == " "
    requires data == "  coolstore-catalog:${APP_VERSION} "
    ensures PresentScalar(data) == Strip(prefix + "{{" + token + "}}" + suffix)
  {
    assert AllWord(token) && Placeholder.NoPlaceholder(suffix);
    assert data == prefix + "${" + token + "}" + suffix + [];
    assert '\n' !in data;
    PresentOfParts(prefix, token, suffix, []);
  }

  // The literals enter as parameters fixed by `requires`: written inline, the solver unfolds them and runs out of resource.
  lemma PaddedImageStrip(padded: string, middle: string)
    requires middle == "coolstore-catalog:{{APP_VERSION}}"
    requires padded == "  coolstore-catalog:" + "{{" + "APP_VERSION" + "}}" + " "
    ensures Strip(padded) == middle
  {
    assert padded == "  " + middle + " ";
    assert AllSpace("  ") && AllSpace(" ") && IsTrimmed(middle);
    StripUnique("  ", middle, " ");
  }

  // ---------------------------------------------------------------------------
  // Manifest rendering (generate_manifest_content)
  // ---------------------------------------------------------------------------

  /** `deployable_template`: `<type name="name" file="file"/>`. */
  function Element(r: Record): string {
    "<" + r.recordType + " name=\"" + r.name + "\" file=\"" + r.file + "\"/>"
  }

  /** `' '.join(parts)`. */
  function JoinSpace(parts: seq<string>): string {
    if parts == [] then ""
    else if |parts| == 1 then parts[0]
    else parts[0] + " " + JoinSpace(parts[1..])
  }

  /** The list comprehension over the records. */
  function Elements(records: seq<Record>): (es: seq<string>)
    ensures |es| == |records|
    ensures forall j :: 0 <= j < |records| ==> es[j] == Element(records[j])
  {
    seq(|records|, j requires 0 <= j < |records| => Element(records[j]))
  }

  /** `manifest_template`, up to the version value. */
  const ManifestHead: string := "<?xml version=\"1.0\" encoding=\"UTF-8\"?>\n<udm.DeploymentPackage version=\""
  /** Between the version and the application values. */
  const ManifestMid: string := "\" application=\""
  /** The seven spaces on each side of the deployable elements on their template line. */
  const ElementsPadding: string := "       "
  /** Between the application value and the deployable elements. */
  const ManifestOpen: string := "\">\n    <deployables>\n" + ElementsPadding
  /** After the deployable elements. */
  const ManifestClose: string := ElementsPadding + "\n    </deployables></udm.DeploymentPackage>\n    "

  /** generate_manifest_content: the template filled with the version, the application and the joined elements. */
  function ManifestContent(application: string, version: string, records: seq<Record>): string {
    ManifestHead + version + ManifestMid + application + ManifestOpen
    + JoinSpace(Elements(records)) + ManifestClose
  }

  // ---------------------------------------------------------------------------
  // Packaging (zip, process)
  // ---------------------------------------------------------------------------

  /** zip: the manifest under its bare name, then one entry per record, in record order. */
  method Zip(records: seq<Record>) returns (entries: seq<string>)
    ensures |entries| == |records| + 1
    ensures entries[0] == ManifestFileName
    ensures forall j :: 0 <= j < |records| ==> entries[j + 1] == records[j].file
  {
    entries := [ManifestFileName];
    var i := 0;
    while i < |records|
      invariant 0 <= i <= |records|
      invariant |entries| == i + 1 && entries[0] == ManifestFileName
      invariant forall j :: 0 <= j < i ==> entries[j + 1] == records[j].file
    {
      entries := entries + [records[i].file];
      i := i + 1;
    }
  }

  /**
   * process with the version given: collect the records once, render the manifest
   * (written by `print`, hence the trailing newline) and list the archive entries.
   */
  method Process(application: string, workDirectory: string, version: string, loaded: Option<Document>)
    returns (result: Result<Package, Failure>)
    ensures result.Err? <==> Deployables(workDirectory, loaded).Err?
    ensures result.Err? ==> result.error == Deployables(workDirectory, loaded).error
    ensures result.Ok? ==>
      var records := Deployables(workDirectory, loaded).value;
      && result.value.manifestPath == workDirectory + "/" + ManifestFileName
      && result.value.manifestText == ManifestContent(application, version, records) + "\n"
      && |result.value.entries| == |records| + 1
      && result.value.entries[0] == ManifestFileName
      && (forall j :: 0 <= j < |records| ==> result.value.entries[j + 1] == records[j].file)
  {
    var deployables := CollectDeployables(workDirectory, loaded);
    if deployables.Err? {
      return Err(deployables.error);
    }
    var manifest := ManifestContent(application, version, deployables.value);
    var entries := Zip(deployables.value);
    return Ok(Package(workDirectory + "/" + ManifestFileName, manifest + "\n", entries));
  }
}
