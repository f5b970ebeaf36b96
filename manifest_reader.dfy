/**
 * A reader for the XL Deploy manifest that generate_manifest_content writes: it
 * recovers the version, the application and the deployable records from the text.
 * Reading back what was rendered shows that the manifest holds exactly one element
 * per record, in record order, with the attribute values copied verbatim, as long as
 * no value contains a double quote (the template does no escaping).
 */
module ManifestReader {
  import opened Wrappers
  import opened Importer

  /** What a manifest states. */
  datatype Manifest = Manifest(version: string, application: string, deployables: seq<Record>)

  /** `s` without its prefix `p`, if it has that prefix. */
  function DropPrefix(s: string, p: string): (r: Option<string>)
    ensures r.Some? <==> p <= s
    ensures r.Some? ==> s == p + r.value
  {
    if p <= s then
      assert s == p + s[|p|..];
      Some(s[|p|..])
    else None
  }

  /** The text before the first `c` and the text after it. */
  function SplitAt(s: string, c: char): (r: Option<(string, string)>)
    ensures r.Some? <==> c in s
    ensures r.Some? ==> s == r.value.0 + [c] + r.value.1 && c !in r.value.0
  {
    if s == [] then None
    else if s[0] == c then
      assert s == [] + [c] + s[1..];
      Some(([], s[1..]))
    else
      match SplitAt(s[1..], c)
      case None => None
      case Some((before, after)) =>
        assert s == [s[0]] + s[1..];
        Some(([s[0]] + before, after))
  }

  /** One `<type name="name" file="file"/>` element at the start of `s`, and the text after it. */
  function ParseElement(s: string): (r: Option<(Record, string)>)
    ensures r.Some? ==> |r.value.1| < |s|
  {
    match DropPrefix(s, "<")
    case None => None
    case Some(s1) =>
      match SplitAt(s1, ' ')
      case None => None
      case Some((recordType, s2)) =>
        match DropPrefix(s2, "name=\"")
        case None => None
        case Some(s3) =>
          match SplitAt(s3, '"')
          case None => None
          case Some((name, s4)) =>
            match DropPrefix(s4, " file=\"")
            case None => None
            case Some(s5) =>
              match SplitAt(s5, '"')
              case None => None
              case Some((file, s6)) =>
                match DropPrefix(s6, "/>")
                case None => None
                case Some(s7) => Some((Record(recordType, name, file), s7))
  }

  /** Elements separated by single spaces; the list ends where no ` <` follows an element. */
  function ParseElements(s: string): Option<(seq<Record>, string)>
    decreases |s|
  {
    if |s| > 0 && s[0] == '<' then
      match ParseElement(s)
      case None => None
      case Some((r, rest)) =>
        if |rest| >= 2 && rest[0] == ' ' && rest[1] == '<' then
          match ParseElements(rest[1..])
          case None => None
          case Some((rs, tail)) => Some(([r] + rs, tail))
        else
          Some(([r], rest))
    else
      Some(([], s))
  }

  /** The template text after the quote that closes the version. */
  const AfterVersion: string := " application=\""
  /** The template text after the quote that closes the application. */
  const AfterApplication: string := ">\n    <deployables>\n" + ElementsPadding

  /** The whole manifest: the fixed text around the version, the application and the elements. */
  function ParseManifest(s: string): Option<Manifest> {
    match DropPrefix(s, ManifestHead)
    case None => None
    case Some(s1) =>
      match SplitAt(s1, '"')
      case None => None
      case Some((version, s2)) =>
        match DropPrefix(s2, AfterVersion)
        case None => None
        case Some(s3) =>
          match SplitAt(s3, '"')
          case None => None
          case Some((application, s4)) =>
            match DropPrefix(s4, AfterApplication)
            case None => None
            case Some(s5) =>
              match ParseElements(s5)
              case None => None
              case Some((records, tail)) =>
                if tail == ManifestClose then Some(Manifest(version, application, records)) else None
  }

  // ---------------------------------------------------------------------------
  // Round trip
  // ---------------------------------------------------------------------------

  /** A record whose attributes the element form keeps apart: no space in the type, no quote in the values. */
  predicate Renderable(r: Record) {
    ' ' !in r.recordType && '"' !in r.name && '"' !in r.file
  }

  lemma DropPrefixOf(p: string, s: string)
    ensures DropPrefix(p + s, p) == Some(s)
  {
  }

  lemma {:induction false} SplitAtOf(before: string, c: char, after: string)
    requires c !in before
    ensures SplitAt(before + [c] + after, c) == Some((before, after))
    decreases |before|
  {
    var s := before + [c] + after;
    if before == [] {
      assert s[0] == c && s[1..] == after;
    } else {
      assert s[0] == before[0] && s[0] != c;
      assert s[1..] == before[1..] + [c] + after;
      SplitAtOf(before[1..], c, after);
      assert [before[0]] + before[1..] == before;
    }
  }

  lemma Assoc(a: string, b: string, c: string)
    ensures (a + b) + c == a + (b + c)
  {
  }

  /** An element followed by any text reads back as its record and that text. */
  lemma ParseElementOf(r: Record, rest: string)
    requires Renderable(r)
    ensures ParseElement(Element(r) + rest) == Some((r, rest))
  {
    var s6 := "/>" + rest;
    var s5 := r.file + (['"'] + s6);
    var s4 := " file=\"" + s5;
    var s3 := r.name + (['"'] + s4);
    var s2 := "name=\"" + s3;
    var s1 := r.recordType + ([' '] + s2);
    ElementSplit(r, rest);
    assert Element(r) + rest == "<" + s1;
    DropPrefixOf("<", s1);
    Assoc(r.recordType, [' '], s2);
    SplitAtOf(r.recordType, ' ', s2);
    DropPrefixOf("name=\"", s3);
    Assoc(r.name, ['"'], s4);
    SplitAtOf(r.name, '"', s4);
    DropPrefixOf(" file=\"", s5);
    Assoc(r.file, ['"'], s6);
    SplitAtOf(r.file, '"', s6);
    DropPrefixOf("/>", rest);
  }

  /** The element with the text after it, nested to the right, one literal separator at a time. */
  lemma ElementSplit(r: Record, rest: string)
    ensures Element(r) + rest
         == "<" + (r.recordType + ([' '] + ("name=\"" + (r.name + (['"'] + (" file=\"" + (r.file + (['"'] + ("/>" + rest)))))))))
  {
    assert " name=\"" == [' '] + "name=\"";
    assert "\" file=\"" == ['"'] + " file=\"";
    assert "\"/>" == ['"'] + "/>";
  }

  /** The joined elements of a non-empty record list start with `<`. */
  lemma JoinStartsWithElement(records: seq<Record>, tail: string)
    requires records != []
    ensures JoinSpace(Elements(records)) + tail == Element(records[0]) + (JoinSpace(Elements(records)) + tail)[|Element(records[0])|..]
    ensures (JoinSpace(Elements(records)) + tail)[0] == '<'
  {
    var es := Elements(records);
    if |es| == 1 {
      assert JoinSpace(es) == es[0];
    } else {
      assert JoinSpace(es) == es[0] + " " + JoinSpace(es[1..]);
    }
  }

  /**
   * The joined elements of renderable records, followed by text that does not go on
   * with ` <` (nor, for no records, with `<`), read back as those records and that text.
   */
  lemma {:induction false} ParseElementsOf(records: seq<Record>, tail: string)
    requires forall j :: 0 <= j < |records| ==> Renderable(records[j])
    requires |tail| >= 2 && tail[0] == ' ' && tail[1] == ' '
    ensures ParseElements(JoinSpace(Elements(records)) + tail) == Some((records, tail))
    decreases |records|
  {
    var es := Elements(records);
    if records == [] {
      assert JoinSpace(es) + tail == tail;
    } else if |records| == 1 {
      assert JoinSpace(es) + tail == Element(records[0]) + tail;
      ParseElementOf(records[0], tail);
      assert [records[0]] == records;
    } else {
      var more := JoinSpace(Elements(records[1..])) + tail;
      assert Elements(records)[1..] == Elements(records[1..]);
      assert JoinSpace(es) + tail == Element(records[0]) + (" " + more);
      ParseElementOf(records[0], " " + more);
      JoinStartsWithElement(records[1..], tail);
      assert (" " + more)[1..] == more;
      ParseElementsOf(records[1..], tail);
      assert [records[0]] + records[1..] == records;
    }
  }

  /**
   * Reading the rendered manifest gives back its version, its application and its
   * records, one per element and in order, when no value carries a double quote.
   */
  lemma ManifestRoundTrip(application: string, version: string, records: seq<Record>)
    requires '"' !in version && '"' !in application
    requires forall j :: 0 <= j < |records| ==> Renderable(records[j])
    ensures ParseManifest(ManifestContent(application, version, records)) == Some(Manifest(version, application, records))
  {
    var joined := JoinSpace(Elements(records));
    var s5 := joined + ManifestClose;
    var s4 := AfterApplication + s5;
    var s3 := application + (['"'] + s4);
    var s2 := AfterVersion + s3;
    var s1 := version + (['"'] + s2);
    var content := ManifestContent(application, version, records);
    ManifestSplit(application, version, joined);
    assert content == ManifestHead + s1;
    DropPrefixOf(ManifestHead, s1);
    assert DropPrefix(content, ManifestHead) == Some(s1);
    Assoc(version, ['"'], s2);
    SplitAtOf(version, '"', s2);
    assert SplitAt(s1, '"') == Some((version, s2));
    DropPrefixOf(AfterVersion, s3);
    Assoc(application, ['"'], s4);
    SplitAtOf(application, '"', s4);
    assert SplitAt(s3, '"') == Some((application, s4));
    DropPrefixOf(AfterApplication, s5);
    CloseStartsWithSpaces();
    ParseElementsOf(records, ManifestClose);
    assert ParseElements(s5) == Some((records, ManifestClose));
  }

  /** The template text after the elements starts with two spaces, so the element list ends there. */
  lemma CloseStartsWithSpaces()
    ensures |ManifestClose| >= 2 && ManifestClose[0] == ' ' && ManifestClose[1] == ' '
  {
  }

  /** The rendered manifest, nested to the right around its two quoted values. */
  lemma ManifestSplit(application: string, version: string, joined: string)
    ensures ManifestHead + version + ManifestMid + application + ManifestOpen + joined + ManifestClose
         == ManifestHead + (version + (['"'] + (AfterVersion + (application + (['"'] + (AfterApplication + (joined + ManifestClose)))))))
  {
    assert ManifestMid == ['"'] + AfterVersion;
    assert ManifestOpen == ['"'] + AfterApplication;
  }

  /** Records made by the naming rule are renderable when the kind, name and work directory hold no double quote. */
  lemma RecordForRenderable(workDirectory: string, kind: string, metadataName: string)
    requires '"' !in workDirectory && '"' !in kind && '"' !in metadataName
    ensures Renderable(RecordFor(workDirectory, kind, metadataName))
  {
    var r := RecordFor(workDirectory, kind, metadataName);
    assert ' ' !in ResourcesFileType;
    forall c | c == '"' ensures c !in r.name && c !in r.file {
      LowerKeepsQuoteOut(kind);
      LowerKeepsQuoteOut(metadataName);
      LowerKeepsQuoteOut(workDirectory);
    }
  }

  lemma LowerKeepsQuoteOut(s: string)
    requires '"' !in s
    ensures '"' !in Ascii.Lower(s)
  {
    var l := Ascii.Lower(s);
    forall i | 0 <= i < |l| ensures l[i] != '"' {
      assert s[i] in s;
    }
  }

  /**
   * The files the manifest names are, in order, the entries the archive lists after
   * the manifest itself: both are the records' files.
   */
  lemma ManifestNamesArchivedFiles(application: string, version: string, records: seq<Record>, entries: seq<string>)
    requires '"' !in version && '"' !in application
    requires forall j :: 0 <= j < |records| ==> Renderable(records[j])
    requires |entries| == |records| + 1 && entries[0] == ManifestFileName
    requires forall j :: 0 <= j < |records| ==> entries[j + 1] == records[j].file
    ensures ParseManifest(ManifestContent(application, version, records)).Some?
    ensures var listed := ParseManifest(ManifestContent(application, version, records)).value.deployables;
            |listed| == |entries| - 1 && forall j :: 0 <= j < |listed| ==> listed[j].file == entries[j + 1]
  {
    ManifestRoundTrip(application, version, records);
  }

  /**
   * End to end: for a `List` or `Template` whose kinds and names, work directory,
   * version and application hold no double quote, the manifest rendered from the
   * run's records reads back as exactly those records, in order.
   */
  lemma DeployablesReadBack(application: string, version: string, workDirectory: string, doc: Document, items: seq<Item>)
    requires (doc.kind == Some("List") && doc.items == Some(items))
          || (doc.kind == Some("Template") && doc.objects == Some(items))
    requires Deployables(workDirectory, Some(doc)).Ok?
    requires '"' !in version && '"' !in application && '"' !in workDirectory
    requires forall j :: 0 <= j < |items| ==> QuoteFree(items[j])
    ensures var records := Deployables(workDirectory, Some(doc)).value;
            ParseManifest(ManifestContent(application, version, records)) == Some(Manifest(version, application, records))
  {
    DeployablesOfItems(workDirectory, doc, items);
    var accepted := Accepted(items);
    var records := Deployables(workDirectory, Some(doc)).value;
    forall j | 0 <= j < |records| ensures Renderable(records[j]) {
      var x := accepted[j];
      assert x in accepted;
      var k :| 0 <= k < |items| && items[k] == x;
      RecordForRenderable(workDirectory, x.kind.value, x.metadataName.value);
    }
    ManifestRoundTrip(application, version, records);
  }

  /** An item whose kind and name, where present, hold no double quote. */
  predicate QuoteFree(item: Item) {
    (item.kind.Some? ==> '"' !in item.kind.value) && (item.metadataName.Some? ==> '"' !in item.metadataName.value)
  }
}
