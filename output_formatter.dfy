/** The output formatter (modules/output_formatter.py): a processed document
    shaped as a JSON object, an XML element tree, CSV rows or TXT lines. The
    model stops at structure: the serialised layouts are not modelled, only
    whether the XML tree survives being parsed again. */
module OutputFormatter {
  import opened Outcomes
  import opened Text
  import opened JsonValue
  import opened FileProcessing

  /** An XML element as `xml.etree` builds it: tag, attributes in the order
      they are set, optional text, children in the order they are appended. */
  datatype Element = Element(tag: string, attrs: seq<(string, string)>, text: Option<string>, children: seq<Element>)

  /** What `format_output` produces, before serialisation. */
  datatype Rendered = JsonOut(json: Json) | XmlOut(root: Element) | CsvOut(rows: seq<seq<string>>) | TxtOut(text: string)

  /** `_format_as_json`: the object handed to `json.dumps`. */
  function FormatAsJson(doc: ProcessedDocument): (r: Json)
    ensures r.JObj? && UniqueKeys(r.fields)
    ensures Keys(r.fields) == ["file_name", "file_type", "file_size", "processed_at", "content", "metadata"]
    ensures Lookup(r.fields, "content") == Some(JStr(doc.content))
    ensures Lookup(r.fields, "metadata") == Some(JObj(doc.metadata))
    ensures Lookup(r.fields, "file_size") == Some(JInt(doc.fileSize))
  {
    var fields := [("file_name", JStr(doc.fileName)), ("file_type", JStr(doc.fileType)),
                   ("file_size", JInt(doc.fileSize)), ("processed_at", JStr(doc.processedAt)),
                   ("content", JStr(doc.content)), ("metadata", JObj(doc.metadata))];
    JsonKeysUnique(fields);
    LookupAt(fields, 2);
    LookupAt(fields, 4);
    LookupAt(fields, 5);
    JObj(fields)
  }

  /** The six keys of the JSON output are distinct. */
  lemma JsonKeysUnique(fields: Dict)
    requires Keys(fields) == ["file_name", "file_type", "file_size", "processed_at", "content", "metadata"]
    ensures UniqueKeys(fields)
  {
    var ks := Keys(fields);
    forall i, j | 0 <= i < j < |fields| ensures fields[i].0 != fields[j].0 {
      assert ks[i] != ks[j];
    }
  }

  function Leaf(tag: string, text: string): Element
  {
    Element(tag, [], Some(text), [])
  }

  /** The element one list item becomes: a dict item gets children, any other
      item the text `str(item)`. */
  function ItemElement(key: string, item: Json): Element
    decreases item, 1
  {
    match item
    case JObj(fields) => Element(key, [], None, DictElements(fields))
    case _ => Leaf(key, Show(item))
  }

  /** One element per list item, all with the list's key as tag. */
  function ItemElements(key: string, items: seq<Json>): seq<Element>
    decreases items, 0
  {
    if items == [] then []
    else
      var last := items[|items| - 1];
      ItemElements(key, items[..|items| - 1]) + [ItemElement(key, last)]
  }

  /** The elements one dict item becomes. */
  function EntryElements(key: string, value: Json): seq<Element>
    decreases value, 2
  {
    match value
    case JObj(fields) => [Element(key, [], None, DictElements(fields))]
    case JArr(items) => ItemElements(key, items)
    case _ => [Leaf(key, Show(value))]
  }

  /** The children `_dict_to_xml(d, parent)` appends to `parent`, in order. */
  function DictElements(d: Dict): seq<Element>
    decreases d, 0
  {
    if d == [] then []
    else
      var last := d[|d| - 1];
      assert last.1 < last;
      DictElements(d[..|d| - 1]) + EntryElements(last.0, last.1)
  }

  /** How many elements a dict item becomes: one per list item, else one. */
  function EntryCount(value: Json): nat
  {
    if value.JArr? then |value.items| else 1
  }

  function ElementCount(d: Dict): nat
  {
    if d == [] then 0 else ElementCount(d[..|d| - 1]) + EntryCount(d[|d| - 1].1)
  }

  lemma {:induction false} ItemElementsShape(key: string, items: seq<Json>)
    ensures |ItemElements(key, items)| == |items|
    ensures forall e :: e in ItemElements(key, items) ==> e.tag == key
  {
    if items != [] {
      ItemElementsShape(key, items[..|items| - 1]);
    }
  }

  /** `_dict_to_xml` adds one element per non-list item and one per list item
      (none for an empty list), each tagged with its item's key. */
  lemma {:induction false} DictElementsShape(d: Dict)
    ensures |DictElements(d)| == ElementCount(d)
    ensures forall e :: e in DictElements(d) ==> e.tag in Keys(d)
  {
    if d != [] {
      var init := d[..|d| - 1];
      var last := d[|d| - 1];
      DictElementsShape(init);
      if last.1.JArr? {
        ItemElementsShape(last.0, last.1.items);
      }
      assert forall e :: e in EntryElements(last.0, last.1) ==> e.tag == last.0;
      assert Keys(d) == Keys(init) + [last.0];
      forall e | e in DictElements(d) ensures e.tag in Keys(d) {
        if e in DictElements(init) {
          assert e.tag in Keys(init);
        }
      }
    }
  }

  /** The list branch of `_dict_to_xml`: one child per item. */
  method ListToXml(key: string, items: seq<Json>) returns (children: seq<Element>)
    ensures children == ItemElements(key, items)
    decreases items, 1
  {
    children := [];
    var j := 0;
    while j < |items|
      invariant 0 <= j <= |items|
      invariant children == ItemElements(key, items[..j])
    {
      var item := items[j];
      assert item in items;
      var child;
      if item.JObj? {
        var grandchildren := DictToXml(item.fields);
        child := Element(key, [], None, grandchildren);
      } else {
        child := Leaf(key, Show(item));
      }
      children := children + [child];
      assert items[..j + 1][..j] == items[..j];
      j := j + 1;
    }
    assert items[..j] == items;
  }

  /** `_dict_to_xml`: the children appended to the parent, in order. */
  method DictToXml(d: Dict) returns (children: seq<Element>)
    ensures children == DictElements(d)
    decreases d, 0
  {
    children := [];
    var i := 0;
    while i < |d|
      invariant 0 <= i <= |d|
      invariant children == DictElements(d[..i])
    {
      var (key, value) := d[i];
      assert d[i] in d && value < d[i];
      if value.JObj? {
        var grandchildren := DictToXml(value.fields);
        children := children + [Element(key, [], None, grandchildren)];
      } else if value.JArr? {
        var items := ListToXml(key, value.items);
        children := children + items;
      } else {
        children := children + [Leaf(key, Show(value))];
      }
      assert d[..i + 1][..i] == d[..i];
      i := i + 1;
    }
    assert d[..i] == d;
  }

  /** The document tree: a `document` root holding `file_info` (the file's
      facts as attributes), `content` and `metadata`, in that order. */
  predicate XmlLayout(doc: ProcessedDocument, root: Element)
  {
    root.tag == "document" && root.attrs == [] && root.text.None? && |root.children| == 3 &&
    root.children[0] == Element("file_info",
      [("name", doc.fileName), ("type", doc.fileType), ("size", NatToString(doc.fileSize)),
       ("processed_at", doc.processedAt)], None, []) &&
    root.children[1] == Leaf("content", doc.content) &&
    root.children[2] == Element("metadata", [], None, DictElements(doc.metadata))
  }

  /** A character XML 1.0 allows in a document (its `Char` production). */
  predicate XmlChar(c: char)
  {
    c == '\t' || c == '\n' || c == '\r' || 0x20 <= c as int <= 0xD7FF ||
    0xE000 <= c as int <= 0xFFFD || 0x10000 <= c as int
  }

  predicate XmlText(s: string)
  {
    forall i :: 0 <= i < |s| ==> XmlChar(s[i])
  }

  /** A character that may start a name without a namespace prefix. Expat
      accepts no character beyond the Basic Multilingual Plane in a name. */
  predicate NameStartChar(c: char)
  {
    if c as int < 0x80 then c == '_' || 'A' <= c <= 'Z' || 'a' <= c <= 'z'
    else
      0xC0 <= c as int <= 0xD6 || 0xD8 <= c as int <= 0xF6 || 0xF8 <= c as int <= 0x2FF ||
      0x370 <= c as int <= 0x37D || 0x37F <= c as int <= 0x1FFF || 0x200C <= c as int <= 0x200D ||
      0x2070 <= c as int <= 0x218F || 0x2C00 <= c as int <= 0x2FEF || 0x3001 <= c as int <= 0xD7FF ||
      0xF900 <= c as int <= 0xFDCF || 0xFDF0 <= c as int <= 0xFFFD
  }

  predicate NameChar(c: char)
  {
    if c as int < 0x80 then NameStartChar(c) || c == '-' || c == '.' || '0' <= c <= '9'
    else NameStartChar(c) || c as int == 0xB7 || 0x300 <= c as int <= 0x36F || 0x203F <= c as int <= 0x2040
  }

  /** A tag the namespace-aware parser accepts: a name with no `:`, since a
      prefix would be unbound. */
  predicate XmlName(s: string)
  {
    s != [] && NameStartChar(s[0]) && forall i :: 0 < i < |s| ==> NameChar(s[i])
  }

  /** What `minidom.parseString` accepts back from `ET.tostring`: every tag
      and attribute name is a name, and every text and attribute value holds
      only XML characters (`tostring` escapes `&`, `<` and `>` but no control
      character). */
  predicate WellFormed(e: Element)
  {
    XmlName(e.tag) &&
    (forall a :: a in e.attrs ==> XmlName(a.0) && XmlText(a.1)) &&
    (e.text.Some? ==> XmlText(e.text.value)) &&
    forall c :: c in e.children ==> WellFormed(c)
  }

  predicate AllWellFormed(es: seq<Element>)
  {
    forall e :: e in es ==> WellFormed(e)
  }

  /** The same condition read off the metadata: every key that becomes a tag
      is a name and every value's text holds only XML characters. The key of
      an empty list becomes no tag, so it may be anything. */
  predicate DictSerialisable(d: Dict)
    decreases d, 0
  {
    d == [] ||
    (var last := d[|d| - 1];
     assert last.1 < last;
     DictSerialisable(d[..|d| - 1]) && EntrySerialisable(last.0, last.1))
  }

  predicate EntrySerialisable(key: string, value: Json)
    decreases value, 2
  {
    match value
    case JObj(fields) => XmlName(key) && DictSerialisable(fields)
    case JArr(items) => ItemsSerialisable(key, items)
    case _ => XmlName(key) && XmlText(Show(value))
  }

  predicate ItemsSerialisable(key: string, items: seq<Json>)
    decreases items, 1
  {
    items == [] ||
    (ItemsSerialisable(key, items[..|items| - 1]) &&
     var last := items[|items| - 1];
     XmlName(key) && if last.JObj? then DictSerialisable(last.fields) else XmlText(Show(last)))
  }

  /** The whole document: the file's facts, the content and the metadata. */
  predicate XmlSerialisable(doc: ProcessedDocument)
  {
    XmlText(doc.fileName) && XmlText(doc.fileType) && XmlText(doc.processedAt) && XmlText(doc.content) &&
    DictSerialisable(doc.metadata)
  }

  lemma LeafWellFormed(tag: string, text: string)
    ensures WellFormed(Leaf(tag, text)) <==> XmlName(tag) && XmlText(text)
    ensures AllWellFormed([Leaf(tag, text)]) <==> XmlName(tag) && XmlText(text)
  {
    assert forall e :: e in [Leaf(tag, text)] <==> e == Leaf(tag, text);
  }

  lemma NodeWellFormed(tag: string, children: seq<Element>)
    ensures WellFormed(Element(tag, [], None, children)) <==> XmlName(tag) && AllWellFormed(children)
    ensures AllWellFormed([Element(tag, [], None, children)]) <==> XmlName(tag) && AllWellFormed(children)
  {
    assert forall e :: e in [Element(tag, [], None, children)] <==> e == Element(tag, [], None, children);
  }

  lemma AllWellFormedConcat(a: seq<Element>, b: seq<Element>)
    ensures AllWellFormed(a + b) <==> AllWellFormed(a) && AllWellFormed(b)
  {
    assert forall e :: e in a + b <==> e in a || e in b;
  }

  /** The elements `_dict_to_xml` builds re-parse exactly when the metadata is
      serialisable. */
  lemma {:induction false} DictWellFormed(d: Dict)
    ensures AllWellFormed(DictElements(d)) <==> DictSerialisable(d)
    decreases d, 0
  {
    if d != [] {
      var last := d[|d| - 1];
      assert last.1 < last;
      DictWellFormed(d[..|d| - 1]);
      EntryWellFormed(last.0, last.1);
      AllWellFormedConcat(DictElements(d[..|d| - 1]), EntryElements(last.0, last.1));
    }
  }

  lemma {:induction false} EntryWellFormed(key: string, value: Json)
    ensures AllWellFormed(EntryElements(key, value)) <==> EntrySerialisable(key, value)
    decreases value, 2
  {
    match value
    case JObj(fields) =>
      DictWellFormed(fields);
      NodeWellFormed(key, DictElements(fields));
    case JArr(items) =>
      ItemsWellFormed(key, items);
    case _ =>
      LeafWellFormed(key, Show(value));
  }

  lemma {:induction false} ItemsWellFormed(key: string, items: seq<Json>)
    ensures AllWellFormed(ItemElements(key, items)) <==> ItemsSerialisable(key, items)
    decreases items, 1
  {
    if items != [] {
      var last := items[|items| - 1];
      ItemsWellFormed(key, items[..|items| - 1]);
      AllWellFormedConcat(ItemElements(key, items[..|items| - 1]), [ItemElement(key, last)]);
      if last.JObj? {
        DictWellFormed(last.fields);
        NodeWellFormed(key, DictElements(last.fields));
      } else {
        LeafWellFormed(key, Show(last));
      }
    }
  }

  /** A non-empty word of lower-case ASCII letters and `_` is a name. */
  lemma WordName(s: string)
    requires s != [] && forall i :: 0 <= i < |s| ==> 'a' <= s[i] <= 'z' || s[i] == '_'
    ensures XmlName(s)
  {
  }

  /** The fixed tags and attribute names of `_format_as_xml` are names. */
  lemma LayoutNames()
    ensures XmlName("document") && XmlName("file_info") && XmlName("content") && XmlName("metadata")
    ensures XmlName("name") && XmlName("type") && XmlName("size") && XmlName("processed_at")
  {
    WordName("document");
    WordName("file_info");
    WordName("content");
    WordName("metadata");
    WordName("name");
    WordName("type");
    WordName("size");
    WordName("processed_at");
  }

  /** `file_info` re-parses exactly when its attribute values are XML text. */
  lemma FileInfoWellFormed(doc: ProcessedDocument)
    ensures var info := Element("file_info",
      [("name", doc.fileName), ("type", doc.fileType), ("size", NatToString(doc.fileSize)),
       ("processed_at", doc.processedAt)], None, []);
      WellFormed(info) <==> XmlText(doc.fileName) && XmlText(doc.fileType) && XmlText(doc.processedAt)
  {
    var size := NatToString(doc.fileSize);
    assert XmlText(size);
    LayoutNames();
    var attrs := [("name", doc.fileName), ("type", doc.fileType), ("size", size), ("processed_at", doc.processedAt)];
    assert forall a :: a in attrs <==> a == attrs[0] || a == attrs[1] || a == attrs[2] || a == attrs[3];
  }

  /** A tree laid out by `_format_as_xml` re-parses exactly when the document
      is serialisable. */
  lemma XmlLayoutWellFormed(doc: ProcessedDocument, root: Element)
    requires XmlLayout(doc, root)
    ensures WellFormed(root) <==> XmlSerialisable(doc)
  {
    var info := root.children[0];
    var content := root.children[1];
    var md := root.children[2];
    assert root == Element("document", [], None, [info, content, md]);
    assert WellFormed(root) <==> WellFormed(info) && WellFormed(content) && WellFormed(md) by {
      LayoutNames();
      NodeWellFormed("document", [info, content, md]);
      AllWellFormedThree(info, content, md);
    }
    assert WellFormed(info) <==> XmlText(doc.fileName) && XmlText(doc.fileType) && XmlText(doc.processedAt) by {
      FileInfoWellFormed(doc);
    }
    assert WellFormed(content) <==> XmlText(doc.content) by {
      LayoutNames();
      LeafWellFormed("content", doc.content);
    }
    assert WellFormed(md) <==> DictSerialisable(doc.metadata) by {
      LayoutNames();
      NodeWellFormed("metadata", DictElements(doc.metadata));
      DictWellFormed(doc.metadata);
    }
  }

  lemma AllWellFormedThree(a: Element, b: Element, c: Element)
    ensures AllWellFormed([a, b, c]) <==> WellFormed(a) && WellFormed(b) && WellFormed(c)
  {
    assert forall e :: e in [a, b, c] <==> e == a || e == b || e == c;
  }

  /** `_prettify_xml`, as far as it can fail: the serialised tree is parsed
      again, which raises `ExpatError` unless the tree is well-formed. The
      pretty-printed layout is not modelled, so the tree itself is returned. */
  function Prettify(root: Element): (r: Result<Element>)
    ensures r.Ok? <==> WellFormed(root)
  {
    if WellFormed(root) then Ok(root) else Err(ExpatError("not well-formed (invalid token)"))
  }

  /** `_format_as_xml`: the tree, or the parser's error when it does not
      re-parse. */
  method FormatAsXml(doc: ProcessedDocument) returns (r: Result<Element>)
    ensures r.Ok? <==> XmlSerialisable(doc)
    ensures r.Ok? ==> XmlLayout(doc, r.value)
    ensures r.Err? ==> r.error.ExpatError?
  {
    var fileInfo := Element("file_info",
      [("name", doc.fileName), ("type", doc.fileType), ("size", NatToString(doc.fileSize)),
       ("processed_at", doc.processedAt)], None, []);
    var content := Leaf("content", doc.content);
    var metadataChildren := DictToXml(doc.metadata);
    var metadata := Element("metadata", [], None, metadataChildren);
    var root := Element("document", [], None, [fileInfo, content, metadata]);
    XmlLayoutWellFormed(doc, root);
    r := Prettify(root);
  }

  /** Every entry of a serialisable dict is serialisable. */
  lemma {:induction false} DictSerialisableAt(d: Dict, i: nat)
    requires DictSerialisable(d) && i < |d|
    ensures EntrySerialisable(d[i].0, d[i].1)
  {
    if i < |d| - 1 {
      DictSerialisableAt(d[..|d| - 1], i);
    }
  }

  /** pypdf names the document-information entries as PDF names, with a
      leading `/` (`/Producer`, `/Creator`). Such a key is no XML name, so the
      XML output of a PDF that has any of them raises `ExpatError`. */
  lemma PdfInfoBreaksXml(doc: ProcessedDocument, entries: seq<(string, string)>, k: nat)
    requires ("pdf_metadata", JObj(StrDict(entries))) in doc.metadata
    requires k < |entries| && entries[k].0 != [] && entries[k].0[0] == '/'
    ensures !XmlSerialisable(doc)
  {
    var i :| 0 <= i < |doc.metadata| && doc.metadata[i] == ("pdf_metadata", JObj(StrDict(entries)));
    assert !XmlName(entries[k].0);
    if DictSerialisable(doc.metadata) {
      DictSerialisableAt(doc.metadata, i);
      DictSerialisableAt(StrDict(entries), k);
      assert false;
    }
  }

  /** The CSV cell for a metadata value: dicts JSON-encoded, all else `str()`. */
  function MetadataCell(value: Json): string
  {
    if value.JObj? then Dumps(value) else Show(value)
  }

  /** The seven rows before the content lines. */
  function CsvHead(doc: ProcessedDocument): seq<seq<string>>
  {
    [["Campo", "Valor"],
     ["Nome do Arquivo", doc.fileName],
     ["Tipo do Arquivo", doc.fileType],
     ["Tamanho (bytes)", NatToString(doc.fileSize)],
     ["Processado em", doc.processedAt],
     [],
     ["Conteúdo"]]
  }

  /** The rows of `_format_as_csv`, as handed to `csv.writer`: the head, one
      single-cell row per line of content, an empty row, "Metadados", then one
      row per metadata item. */
  predicate CsvLayout(doc: ProcessedDocument, rows: seq<seq<string>>)
  {
    var lines := Split(doc.content, '\n');
    |rows| == 7 + |lines| + 2 + |doc.metadata| &&
    rows[..7] == CsvHead(doc) &&
    (forall j :: 0 <= j < |lines| ==> rows[7 + j] == [lines[j]]) &&
    rows[7 + |lines|] == [] && rows[8 + |lines|] == ["Metadados"] &&
    forall i :: 0 <= i < |doc.metadata| ==>
      rows[9 + |lines| + i] == [doc.metadata[i].0, MetadataCell(doc.metadata[i].1)]
  }

  /** `_format_as_csv`: the rows it writes. */
  method FormatAsCsv(doc: ProcessedDocument) returns (rows: seq<seq<string>>)
    ensures CsvLayout(doc, rows)
  {
    rows := CsvHead(doc);
    var lines := Split(doc.content, '\n');
    var j := 0;
    while j < |lines|
      invariant 0 <= j <= |lines|
      invariant |rows| == 7 + j && rows[..7] == CsvHead(doc)
      invariant forall k :: 0 <= k < j ==> rows[7 + k] == [lines[k]]
    {
      rows := rows + [[lines[j]]];
      j := j + 1;
    }
    rows := rows + [[], ["Metadados"]];
    var n := |rows|;
    var i := 0;
    while i < |doc.metadata|
      invariant 0 <= i <= |doc.metadata|
      invariant |rows| == n + i && rows[..7] == CsvHead(doc)
      invariant forall k :: 0 <= k < |lines| ==> rows[7 + k] == [lines[k]]
      invariant rows[7 + |lines|] == [] && rows[8 + |lines|] == ["Metadados"]
      invariant forall k :: 0 <= k < i ==> rows[n + k] == [doc.metadata[k].0, MetadataCell(doc.metadata[k].1)]
    {
      var (key, value) := doc.metadata[i];
      if value.JObj? {
        rows := rows + [[key, Dumps(value)]];
      } else {
        rows := rows + [[key, Show(value)]];
      }
      i := i + 1;
    }
  }

  /** The content rows of the CSV hold the content exactly: one row per
      "\n"-separated line, and joining them with "\n" gives the content back. */
  lemma CsvContentRows(content: string)
    ensures |Split(content, '\n')| == Count(content, '\n') + 1
    ensures Join("\n", Split(content, '\n')) == content
  {
    SplitJoin(content, '\n');
  }

  const Rule: string := Repeat('=', 80)
  const ThinRule: string := Repeat('-', 80)

  /** The nineteen lines before the metadata. `sizeMb` is the text of
      `file_size / 1048576` formatted with two decimals. */
  function TxtHead(doc: ProcessedDocument, sizeMb: string): seq<string>
  {
    [Rule, "DOCUMENTO PROCESSADO", Rule, "",
     "Nome do Arquivo: " + doc.fileName,
     "Tipo do Arquivo: " + doc.fileType,
     "Tamanho: " + NatToString(doc.fileSize) + " bytes (" + sizeMb + " MB)",
     "Processado em: " + doc.processedAt,
     "",
     ThinRule, "CONTEÚDO", ThinRule, "",
     doc.content,
     "",
     ThinRule, "METADADOS", ThinRule, ""]
  }

  /** The lines for one metadata item: a dict gives "key:" and one indented
      line per entry, any other value one "key: value" line. */
  function TxtEntryLines(key: string, value: Json): seq<string>
  {
    match value
    case JObj(fields) =>
      [key + ":"] + seq(|fields|, i requires 0 <= i < |fields| => SubLine(fields[i]))
    case _ => [key + ": " + Show(value)]
  }

  /** The indented line for one entry of a dict value. */
  function SubLine(entry: (string, Json)): string
  {
    "  " + entry.0 + ": " + Show(entry.1)
  }

  function TxtMetadataLines(d: Dict): seq<string>
  {
    if d == [] then [] else TxtMetadataLines(d[..|d| - 1]) + TxtEntryLines(d[|d| - 1].0, d[|d| - 1].1)
  }

  /** How many lines a metadata item takes. */
  function TxtEntryCount(value: Json): nat
  {
    if value.JObj? then 1 + |value.fields| else 1
  }

  function TxtMetadataCount(d: Dict): nat
  {
    if d == [] then 0 else TxtMetadataCount(d[..|d| - 1]) + TxtEntryCount(d[|d| - 1].1)
  }

  /** The TXT output has the nineteen head lines and then as many metadata
      lines as the items need; its rules are 80 characters wide. */
  lemma {:induction false} TxtLineCount(d: Dict)
    ensures |TxtMetadataLines(d)| == TxtMetadataCount(d)
    ensures |Rule| == 80 && |ThinRule| == 80
  {
    if d != [] {
      TxtLineCount(d[..|d| - 1]);
    }
  }

  /** One more metadata item adds its own lines at the end. */
  lemma TxtMetadataSnoc(d: Dict, i: nat)
    requires i < |d|
    ensures TxtMetadataLines(d[..i + 1]) == TxtMetadataLines(d[..i]) + TxtEntryLines(d[i].0, d[i].1)
  {
    assert d[..i + 1][..i] == d[..i];
  }

  /** The lines after `prefix` for one more item are those so far, then that item's. */
  lemma TxtMetadataStep(prefix: seq<string>, d: Dict, i: nat)
    requires i < |d|
    ensures prefix + TxtMetadataLines(d[..i + 1]) ==
      (prefix + TxtMetadataLines(d[..i])) + TxtEntryLines(d[i].0, d[i].1)
  {
    TxtMetadataSnoc(d, i);
  }

  /** The inner loop of `_format_as_txt` for a dict value. */
  method TxtSubLines(key: string, fields: Dict) returns (lines: seq<string>)
    ensures lines == TxtEntryLines(key, JObj(fields))
  {
    lines := [key + ":"];
    var j := 0;
    while j < |fields|
      invariant 0 <= j <= |fields|
      invariant |lines| == 1 + j && lines[0] == key + ":"
      invariant forall k :: 0 <= k < j ==> lines[1 + k] == SubLine(fields[k])
    {
      lines := lines + [SubLine(fields[j])];
      j := j + 1;
    }
    assert lines == [key + ":"] + lines[1..];
    assert lines[1..] == seq(|fields|, i requires 0 <= i < |fields| => SubLine(fields[i]));
  }

  /** The lines of one metadata item: a dict value gets its sub-lines, any
      other value one `key: value` line. */
  method TxtEntry(key: string, value: Json) returns (entry: seq<string>)
    ensures entry == TxtEntryLines(key, value)
  {
    if value.JObj? {
      entry := TxtSubLines(key, value.fields);
      assert value == JObj(value.fields);
    } else {
      entry := [key + ": " + Show(value)];
    }
  }

  /** The metadata loop of `_format_as_txt`, appending to `prefix`. */
  method AppendMetadataLines(prefix: seq<string>, d: Dict) returns (lines: seq<string>)
    ensures lines == prefix + TxtMetadataLines(d)
  {
    lines := prefix;
    var i := 0;
    while i < |d|
      invariant 0 <= i <= |d|
      invariant lines == prefix + TxtMetadataLines(d[..i])
    {
      var entry := TxtEntry(d[i].0, d[i].1);
      TxtMetadataStep(prefix, d, i);
      lines := lines + entry;
      i := i + 1;
    }
    assert d[..i] == d;
  }

  /** `_format_as_txt`: the head lines and metadata lines joined by "\n",
      with no newline at the end. */
  method FormatAsTxt(doc: ProcessedDocument, sizeMb: string) returns (text: string)
    ensures text == Join("\n", TxtHead(doc, sizeMb) + TxtMetadataLines(doc.metadata))
  {
    var lines := TxtHead(doc, sizeMb);
    lines := AppendMetadataLines(lines, doc.metadata);
    text := Join("\n", lines);
  }

  const OutputFormats: set<string> := {"json", "xml", "csv", "txt"}

  lemma OutputFormatsListed(f: string)
    ensures f in OutputFormats <==> f == "json" || f == "xml" || f == "csv" || f == "txt"
  {
  }

  /** The `ValueError` message for a format `format_output` does not know. */
  function UnsupportedFormat(f: string): string
  {
    "Formato não suportado: " + f + ". Formatos suportados: json, xml, csv, txt"
  }

  /** `format_output`: the format name is lower-cased and dispatched. */
  method FormatOutput(doc: ProcessedDocument, format: string, sizeMb: string) returns (r: Result<Rendered>)
    ensures Lower(format) != "xml" ==> (r.Ok? <==> Lower(format) in OutputFormats)
    ensures Lower(format) == "json" ==> r == Ok(JsonOut(FormatAsJson(doc)))
    ensures Lower(format) == "xml" ==> (r.Ok? <==> XmlSerialisable(doc))
    ensures Lower(format) == "xml" && r.Ok? ==> r.value.XmlOut? && XmlLayout(doc, r.value.root)
    ensures Lower(format) == "xml" && r.Err? ==> r.error.ExpatError?
    ensures Lower(format) == "csv" ==> r.Ok? && r.value.CsvOut? && CsvLayout(doc, r.value.rows)
    ensures Lower(format) == "txt" ==> r == Ok(TxtOut(Join("\n", TxtHead(doc, sizeMb) + TxtMetadataLines(doc.metadata))))
    ensures Lower(format) !in OutputFormats ==> r == Err(ValueError(UnsupportedFormat(Lower(format))))
  {
    var f := Lower(format);
    OutputFormatsListed(f);
    if f == "json" {
      r := Ok(JsonOut(FormatAsJson(doc)));
    } else if f == "xml" {
      var root :- FormatAsXml(doc);
      r := Ok(XmlOut(root));
    } else if f == "csv" {
      var rows := FormatAsCsv(doc);
      r := Ok(CsvOut(rows));
    } else if f == "txt" {
      var text := FormatAsTxt(doc, sizeMb);
      r := Ok(TxtOut(text));
    } else {
      r := Err(ValueError(UnsupportedFormat(f)));
    }
  }
}
