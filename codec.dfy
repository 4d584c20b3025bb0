/** Conversion between a kit's metadata and its document (load_from, save_to, load_file). */
module KitCodec {
  import opened Wrappers
  import opened Instruments
  import opened Document

  /** The part of a kit that its document carries. */
  datatype Metadata = Metadata(name: string, author: string, info: string, license: string,
                               instruments: seq<Instrument>)

  const RootTag: string := "drumkit_info"
  const DefaultAuthor: string := "undefined author"
  const DefaultInfo: string := "defaultInfo"
  const DefaultLicense: string := "undefined license"

  /**
   * Drumkit::load_from: `name` is required and has no default; the other three
   * fields fall back to fixed literals; a missing instrumentList child gives an
   * empty list.
   */
  function LoadFrom(node: Node): (r: Option<Metadata>)
    ensures r.None? <==> "name" !in node.texts || node.texts["name"] == ""
    ensures r.Some? ==> r.value.name != "" && r.value.name == node.texts["name"]
  {
    var name := ReadString(node, "name", "");
    if name == "" then None
    else
      Some(Metadata(name,
                    ReadString(node, "author", DefaultAuthor),
                    ReadString(node, "info", DefaultInfo),
                    ReadString(node, "license", DefaultLicense),
                    match node.instrumentList
                    case None => []
                    case Some(items) => items))
  }

  /** Drumkit::save_to, applied to the fresh root element save_file creates. */
  function SaveTo(m: Metadata): (node: Node)
    ensures node.texts == map["name" := m.name, "author" := m.author, "info" := m.info, "license" := m.license]
    ensures node.texts.Keys == {"name", "author", "info", "license"}
    ensures node.instrumentList == Some(m.instruments)
  {
    var n := WriteString(WriteString(WriteString(WriteString(EmptyNode,
               "name", m.name), "author", m.author), "info", m.info), "license", m.license);
    n.(instrumentList := Some(m.instruments))
  }

  /** The document save_file writes: a drumkit_info root holding save_to's output. */
  function DrumkitDoc(m: Metadata): (doc: XmlDoc)
    ensures doc.rootName == RootTag && doc.root == SaveTo(m)
  {
    XmlDoc(RootTag, SaveTo(m))
  }

  /** A field whose text is non-empty is read back verbatim; an absent or empty one takes its literal default. */
  lemma LoadFromDefaults(node: Node)
    requires "name" in node.texts && node.texts["name"] != ""
    ensures LoadFrom(node).Some?
    ensures LoadFrom(node).value.author ==
      if "author" in node.texts && node.texts["author"] != "" then node.texts["author"] else DefaultAuthor
    ensures LoadFrom(node).value.info ==
      if "info" in node.texts && node.texts["info"] != "" then node.texts["info"] else DefaultInfo
    ensures LoadFrom(node).value.license ==
      if "license" in node.texts && node.texts["license"] != "" then node.texts["license"] else DefaultLicense
    ensures node.instrumentList.None? ==> LoadFrom(node).value.instruments == []
    ensures node.instrumentList.Some? ==> LoadFrom(node).value.instruments == node.instrumentList.value
  {
  }

  /** What a kit reads back as: an empty author, info or license becomes its default. */
  function Reloaded(m: Metadata): (r: Metadata)
    ensures r.name == m.name && r.instruments == m.instruments
    ensures m.author != "" && m.info != "" && m.license != "" ==> r == m
    ensures r.author != "" && r.info != "" && r.license != ""
  {
    m.(author := if m.author == "" then DefaultAuthor else m.author,
       info := if m.info == "" then DefaultInfo else m.info,
       license := if m.license == "" then DefaultLicense else m.license)
  }

  /**
   * save_to then load_from gives back a kit with a name: the same name and
   * instruments, each non-empty field as written, each empty one as its default.
   */
  lemma SaveLoadRoundTrip(m: Metadata)
    requires m.name != ""
    ensures LoadFrom(SaveTo(m)) == Some(Reloaded(m))
    ensures m.author != "" && m.info != "" && m.license != "" ==> LoadFrom(SaveTo(m)) == Some(m)
  {
  }

  /** An empty author is written as an empty element and read back as "undefined author". */
  lemma EmptyAuthorReadsBackDefault(m: Metadata)
    requires m.name != "" && m.author == ""
    ensures LoadFrom(SaveTo(m)).Some? && LoadFrom(SaveTo(m)).value.author == DefaultAuthor
    ensures SaveTo(m).texts["author"] == ""
  {
  }

  /** Reading back is stable: a kit as read back is written and read back unchanged. */
  lemma ReloadedIsStable(m: Metadata)
    requires m.name != ""
    ensures LoadFrom(SaveTo(Reloaded(m))) == Some(Reloaded(m))
  {
  }

  /** A kit without a name cannot be written so that it reads back. */
  lemma NamelessKitDoesNotRoundTrip(m: Metadata)
    requires m.name == ""
    ensures LoadFrom(SaveTo(m)) == None
  {
  }

  /**
   * Drumkit::load_file with the null test that the source omits: reading fails
   * when no readable document is at `path` (absent, unparsable or failing the
   * schema) or its root is not drumkit_info, and a document whose decoding fails
   * yields no kit.
   */
  function LoadFileResult(docs: map<string, XmlDoc>, path: string): (r: Option<Metadata>)
    ensures r.Some? ==> path in docs && docs[path].rootName == RootTag
    ensures r.Some? ==> Some(r.value) == LoadFrom(docs[path].root)
    ensures path in docs && docs[path].rootName == RootTag && LoadFrom(docs[path].root).Some? ==> r.Some?
  {
    if path !in docs || docs[path].rootName != RootTag then None
    else LoadFrom(docs[path].root)
  }

  /** What Drumkit::load_file does as written: the result of load_from is dereferenced unchecked. */
  datatype LoadFileOutcome = Returned(kit: Option<Metadata>) | NullDereference

  function LoadFileAsWritten(docs: map<string, XmlDoc>, path: string): (r: LoadFileOutcome)
    ensures r.Returned? && r.kit.Some? ==> path in docs && Some(r.kit.value) == LoadFrom(docs[path].root)
    ensures r.NullDereference? ==> path in docs && docs[path].rootName == RootTag
  {
    if path !in docs || docs[path].rootName != RootTag then Returned(None)
    else
      match LoadFrom(docs[path].root)
      case None => NullDereference
      case Some(m) => Returned(Some(m))
  }

  /** A readable drumkit_info document with an empty name makes load_file dereference null. */
  lemma LoadFileAsWrittenDereferencesNull()
    ensures LoadFileAsWritten(map["kit/drumkit.xml" := XmlDoc(RootTag, Node(map["name" := ""], None))],
                              "kit/drumkit.xml") == NullDereference
    ensures LoadFileResult(map["kit/drumkit.xml" := XmlDoc(RootTag, Node(map["name" := ""], None))],
                           "kit/drumkit.xml") == None
  {
  }

  /** The corrected load_file agrees with the source wherever the source does not crash. */
  lemma LoadFileCorrected(docs: map<string, XmlDoc>, path: string)
    ensures LoadFileAsWritten(docs, path).Returned? ==> LoadFileAsWritten(docs, path).kit == LoadFileResult(docs, path)
    ensures LoadFileAsWritten(docs, path).NullDereference? <==>
      path in docs && docs[path].rootName == RootTag && LoadFileResult(docs, path).None?
  {
  }

  /** A document written by save_file at `path` loads back as the kit's metadata, empty fields defaulted. */
  lemma SavedDocumentLoads(docs: map<string, XmlDoc>, path: string, m: Metadata)
    requires m.name != ""
    ensures LoadFileResult(docs[path := DrumkitDoc(m)], path) == Some(Reloaded(m))
  {
    SaveLoadRoundTrip(m);
  }
}
