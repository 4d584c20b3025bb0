/**
 * The structured document, reduced to what the kit codec reads and writes:
 * an element's text children by tag, and its optional instrumentList child
 * (held in the instrument list's own decoded form).
 */
module Document {
  import opened Wrappers
  import opened Instruments

  datatype Node = Node(texts: map<string, string>, instrumentList: Option<seq<Instrument>>)

  /** A document read from or written to disk: its root element's tag and the root. */
  datatype XmlDoc = XmlDoc(rootName: string, root: Node)

  /** A freshly created element with no children. */
  const EmptyNode: Node := Node(map[], None)

  /**
   * XMLNode::read_string(key, default): the child's text, or `default` when
   * the child is absent or its text is empty.
   */
  function ReadString(node: Node, key: string, default: string): (r: string)
    ensures key in node.texts && node.texts[key] != "" ==> r == node.texts[key]
    ensures key !in node.texts || node.texts[key] == "" ==> r == default
  {
    if key in node.texts && node.texts[key] != "" then node.texts[key] else default
  }

  /**
   * XMLNode::write_string(key, value): appends a new `key` child. read_string
   * reads the first `key` child, so on an element that already has one the
   * text it reads stays the old one.
   */
  function WriteString(node: Node, key: string, value: string): (r: Node)
    ensures key !in node.texts ==> r.texts == node.texts[key := value]
    ensures key in node.texts ==> r.texts == node.texts
    ensures r.instrumentList == node.instrumentList
  {
    if key in node.texts then node else node.(texts := node.texts[key := value])
  }

  /**
   * Reading back a child just written gives the value written, or the
   * default when an empty value was written; when the element already had
   * such a child, it reads as before. Other children read as before.
   */
  lemma ReadAfterWrite(node: Node, key: string, value: string, other: string, default: string)
    ensures key !in node.texts ==>
              ReadString(WriteString(node, key, value), key, default) == if value == "" then default else value
    ensures key in node.texts ==>
              ReadString(WriteString(node, key, value), key, default) == ReadString(node, key, default)
    ensures other != key ==> ReadString(WriteString(node, key, value), other, default) == ReadString(node, other, default)
  {
  }
}
