/**
 * The SAX callbacks libxml2 calls while it tokenizes (ext/nokogiri/xml_sax_parser.c):
 * each one marshals its raw C arguments into an event for the Ruby
 * document and calls the document under rb_protect; when that call raises,
 * the callback asks the tokenizer to stop instead of letting the exception
 * unwind through libxml2. The failure is not propagated out of the callback.
 *
 * Whether the document's method raises is a parameter (`raised`) of each
 * callback, and each callback returns the event(s) it handed to the document.
 */
module SaxCallbacks {
  import opened Values
  import opened CStrings
  import opened Libxml

  /** A flat attribute of start_element: [name, value], the value nil for a NULL pointer. */
  datatype Pair = Pair(name: string, value: Option<string>)

  /** NativeParser::Attribute: a namespaced attribute of start_element_namespace. */
  datatype Attribute = Attribute(localname: Option<string>, prefix: Option<string>, uri: Option<string>, value: string)

  /** A namespace declaration of start_element_namespace: [prefix, uri]. */
  datatype Namespace = Namespace(prefix: Option<string>, uri: Option<string>)

  /** The document methods the callbacks call, with their arguments. */
  datatype Event =
    | XmlDecl(version: Option<string>, encoding: Option<string>, standalone: Option<string>)
    | StartDocument
    | EndDocument
    | StartElement(name: string, attrs: seq<Pair>)
    | EndElement(name: string)
    | StartElementNamespace(localname: string, attributes: seq<Attribute>,
                            prefix: Option<string>, uri: Option<string>, namespaces: seq<Namespace>)
    | EndElementNamespace(localname: string, prefix: Option<string>, uri: Option<string>)
    | Characters(text: string)
    | Comment(text: string)
    | Warning(message: string)
    | Error(message: string)
    | CdataBlock(text: string)

  // ---------------------------------------------------------------------
  // start_document: the XML declaration decision

  /** The standalone argument of xmldecl: "no" for 0, "yes" for 1, nil for anything else. */
  function StandaloneName(standalone: int): (r: Option<string>)
    ensures r == Some("yes") <==> standalone == 1
    ensures r == Some("no") <==> standalone == 0
    ensures r.None? <==> standalone != 0 && standalone != 1
  {
    if standalone == 0 then Some("no")
    else if standalone == 1 then Some("yes")
    else None
  }

  /**
   * The xmldecl event start_document sends before start_document, if any:
   * only for a non-HTML context whose input had an XML declaration.
   */
  function Declaration(html: int, standalone: int, version: Option<string>, encoding: Option<string>): (r: Option<Event>)
    ensures r.Some? <==> html != 1 && standalone != -1
    ensures r.Some? ==> r.value.XmlDecl? && r.value.version == version && r.value.encoding == encoding
    ensures r.Some? ==> r.value.standalone == StandaloneName(standalone)
  {
    if html != 1 && standalone != -1 then Some(XmlDecl(version, encoding, StandaloneName(standalone)))
    else None
  }

  /** An HTML context never produces an xmldecl event, whatever it recorded. */
  lemma HtmlHasNoDeclaration(standalone: int, version: Option<string>, encoding: Option<string>)
    ensures Declaration(1, standalone, version, encoding).None?
  {
  }

  // ---------------------------------------------------------------------
  // The rb_protect -> xmlStopParser pattern shared by every callback

  /** After a protected call to the document: stop the tokenizer iff the call raised. */
  method Protect(ctxt: Ctxt, raised: bool)
    modifies ctxt`stopped
    ensures ctxt.stopped == (old(ctxt.stopped) || raised)
  {
    if raised {
      ctxt.Stop();
    }
  }

  /**
   * start_document: xmldecl first when the context has a declaration and is
   * not HTML; if that call raises, the tokenizer is stopped and
   * start_document is not called. Otherwise start_document follows.
   */
  method OnStartDocument(ctxt: Ctxt, declRaised: bool, startRaised: bool) returns (sent: seq<Event>)
    modifies ctxt`stopped
    ensures var decl := Declaration(ctxt.html, ctxt.standalone, ctxt.version, ctxt.encoding);
      && (decl.Some? && declRaised ==> sent == [decl.value] && ctxt.stopped)
      && (decl.Some? && !declRaised ==> sent == [decl.value, StartDocument])
      && (decl.None? ==> sent == [StartDocument])
    ensures StartDocument in sent ==> ctxt.stopped == (old(ctxt.stopped) || startRaised)
    ensures StartDocument !in sent <==> Declaration(ctxt.html, ctxt.standalone, ctxt.version, ctxt.encoding).Some? && declRaised
  {
    sent := [];
    var decl := Declaration(ctxt.html, ctxt.standalone, ctxt.version, ctxt.encoding);
    if decl.Some? {
      sent := [decl.value];
      Protect(ctxt, declRaised);
      if declRaised {
        return;
      }
    }
    sent := sent + [StartDocument];
    Protect(ctxt, startRaised);
  }

  method OnEndDocument(ctxt: Ctxt, raised: bool) returns (sent: Event)
    modifies ctxt`stopped
    ensures sent == EndDocument
    ensures ctxt.stopped == (old(ctxt.stopped) || raised)
  {
    sent := EndDocument;
    Protect(ctxt, raised);
  }

  // ---------------------------------------------------------------------
  // start_element: a NULL-terminated list of name/value pointers

  /**
   * The flat attribute array libxml2 passes to start_element: NULL, or an
   * array with a NULL name at some even index, every other entry a NULL or a
   * C string.
   */
  ghost predicate FlatArray(atts: Option<seq<Ptr>>) {
    atts.Some? ==>
      && (exists m :: 0 <= m && 2 * m < |atts.value| && atts.value[2 * m].Null?)
      && (forall i :: 0 <= i < |atts.value| ==> NullOrCString(atts.value[i]))
  }

  /** Entries 2j and 2j+1 of a flat array: a name (a C string), then a value (NULL or a C string). */
  predicate NamedPair(a: seq<Ptr>, j: int) {
    0 <= j && 2 * j + 1 < |a| && IsCString(a[2 * j]) && NullOrCString(a[2 * j + 1])
  }

  /** Pair `j` of a flat array: [name, value], the value nil for a NULL pointer. */
  function PairAt(a: seq<Ptr>, j: int): (pair: Pair)
    requires NamedPair(a, j)
  {
    Pair(CStr(a[2 * j]), StrOrNil(a[2 * j + 1]))
  }

  /**
   * start_element's attribute list: the [name, value] pairs read two entries
   * at a time up to the first NULL name, in input order; a NULL value gives
   * nil, and a NULL array gives no attributes.
   */
  method FlatAttributes(atts: Option<seq<Ptr>>) returns (attrs: seq<Pair>)
    requires FlatArray(atts)
    ensures atts.None? ==> attrs == []
    ensures atts.Some? ==> 2 * |attrs| < |atts.value| && atts.value[2 * |attrs|].Null?
    ensures atts.Some? ==> forall j :: 0 <= j < |attrs| ==> NamedPair(atts.value, j) && attrs[j] == PairAt(atts.value, j)
  {
    attrs := [];
    if atts.None? {
      return;
    }
    var a := atts.value;
    ghost var m :| 0 <= m && 2 * m < |a| && a[2 * m].Null?;
    var i := 0;
    while a[i].At?
      invariant |attrs| <= m && i == 2 * |attrs|
      invariant forall j :: 0 <= j < |attrs| ==> NamedPair(a, j) && attrs[j] == PairAt(a, j)
      decreases m - |attrs|
    {
      assert NullOrCString(a[i]) && NullOrCString(a[i + 1]);
      assert NamedPair(a, |attrs|);
      attrs := attrs + [PairAt(a, i / 2)];
      i := i + 2;
    }
  }

  method OnStartElement(ctxt: Ctxt, name: Ptr, atts: Option<seq<Ptr>>, raised: bool) returns (sent: Event)
    requires IsCString(name) && FlatArray(atts)
    modifies ctxt`stopped
    ensures sent.StartElement? && sent.name == CStr(name)
    ensures atts.None? ==> sent.attrs == []
    ensures atts.Some? ==> 2 * |sent.attrs| < |atts.value| && atts.value[2 * |sent.attrs|].Null?
    ensures atts.Some? ==> forall j :: 0 <= j < |sent.attrs| ==>
      NamedPair(atts.value, j) && sent.attrs[j] == PairAt(atts.value, j)
    ensures ctxt.stopped == (old(ctxt.stopped) || raised)
  {
    var attributes := FlatAttributes(atts);
    sent := StartElement(CStr(name), attributes);
    Protect(ctxt, raised);
  }

  method OnEndElement(ctxt: Ctxt, name: Ptr, raised: bool) returns (sent: Event)
    requires IsCString(name)
    modifies ctxt`stopped
    ensures sent == EndElement(CStr(name))
    ensures ctxt.stopped == (old(ctxt.stopped) || raised)
  {
    sent := EndElement(CStr(name));
    Protect(ctxt, raised);
  }

  // ---------------------------------------------------------------------
  // start_element_ns: counted arrays of 5-tuples and of prefix/uri pairs

  /**
   * Attribute `j` of libxml2's attribute array: [localname, prefix, URI,
   * value start, value end], the value a byte range of one buffer.
   */
  predicate AttributeTuple(a: seq<Ptr>, j: int) {
    && 0 <= j && 5 * j + 4 < |a|
    && NullOrCString(a[5 * j]) && NullOrCString(a[5 * j + 1]) && NullOrCString(a[5 * j + 2])
    && a[5 * j + 3].At? && a[5 * j + 4].At?
    && a[5 * j + 3].buf == a[5 * j + 4].buf
    && a[5 * j + 3].off <= a[5 * j + 4].off <= |a[5 * j + 4].buf|
  }

  /**
   * The attribute array: `nb` 5-tuples. libxml2 never passes a negative
   * count (rb_ary_new2 would raise on one before the handler is reached).
   */
  predicate AttributeArray(nb: int, attributes: Option<seq<Ptr>>) {
    0 <= nb && (attributes.Some? ==> forall j :: 0 <= j < nb ==> AttributeTuple(attributes.value, j))
  }

  /** The attribute that tuple `j` describes; its value is the byte range [start, end). */
  function TupleAttribute(a: seq<Ptr>, j: int): (r: Attribute)
    requires AttributeTuple(a, j)
    ensures |r.value| == a[5 * j + 4].off - a[5 * j + 3].off
  {
    Attribute(StrOrNil(a[5 * j]), StrOrNil(a[5 * j + 1]), StrOrNil(a[5 * j + 2]),
              Span(a[5 * j + 3], a[5 * j + 4].off - a[5 * j + 3].off))
  }

  /**
   * attributes_as_list: exactly `nb` attributes, in order, one per 5-tuple,
   * each value the byte range between its two pointers; none for a NULL
   * array.
   */
  method AttributesAsList(nb: int, attributes: Option<seq<Ptr>>) returns (list: seq<Attribute>)
    requires AttributeArray(nb, attributes)
    ensures attributes.None? || nb == 0 ==> list == []
    ensures attributes.Some? && nb > 0 ==> |list| == nb
    ensures attributes.Some? ==> forall j :: 0 <= j < |list| ==>
      AttributeTuple(attributes.value, j) && list[j] == TupleAttribute(attributes.value, j)
  {
    list := [];
    if attributes.None? {
      return;
    }
    var a := attributes.value;
    var i := 0;
    while i < nb * 5
      invariant i == 5 * |list|
      invariant nb > 0 ==> |list| <= nb
      invariant nb == 0 ==> list == []
      invariant forall j :: 0 <= j < |list| ==> AttributeTuple(a, j) && list[j] == TupleAttribute(a, j)
      decreases nb * 5 - i
    {
      list := list + [TupleAttribute(a, i / 5)];
      i := i + 5;
    }
  }

  /** The namespace array: `nb` prefix/uri pairs, each a NULL or a C string; `nb` is never negative. */
  predicate NamespaceArray(nb: int, namespaces: Option<seq<Ptr>>) {
    && 0 <= nb
    && (namespaces.Some? ==>
          && 2 * nb <= |namespaces.value|
          && forall i :: 0 <= i < |namespaces.value| ==> NullOrCString(namespaces.value[i]))
  }

  /** start_element_ns's namespace list: exactly `nb` (prefix, uri) pairs in order; none for NULL. */
  method NamespacesAsList(nb: int, namespaces: Option<seq<Ptr>>) returns (list: seq<Namespace>)
    requires NamespaceArray(nb, namespaces)
    ensures namespaces.None? || nb == 0 ==> list == []
    ensures namespaces.Some? && nb > 0 ==> |list| == nb
    ensures namespaces.Some? ==> forall j :: 0 <= j < |list| ==>
      2 * j + 1 < |namespaces.value| &&
      list[j] == Namespace(StrOrNil(namespaces.value[2 * j]), StrOrNil(namespaces.value[2 * j + 1]))
  {
    list := [];
    if namespaces.None? {
      return;
    }
    var a := namespaces.value;
    var i := 0;
    while i < nb * 2
      invariant i == 2 * |list|
      invariant nb > 0 ==> |list| <= nb
      invariant nb == 0 ==> list == []
      invariant forall j :: 0 <= j < |list| ==>
        2 * j + 1 < |a| && list[j] == Namespace(StrOrNil(a[2 * j]), StrOrNil(a[2 * j + 1]))
      decreases nb * 2 - i
    {
      list := list + [Namespace(StrOrNil(a[i]), StrOrNil(a[i + 1]))];
      i := i + 2;
    }
  }

  /**
   * start_element_ns: start_element_namespace with the local name, the
   * attribute list, prefix and URI (nil when NULL) and the namespace list.
   * `nbDefaulted` is not read: defaulted attributes are among the `nb`.
   */
  method OnStartElementNs(ctxt: Ctxt, localname: Ptr, prefix: Ptr, uri: Ptr,
                          nbNamespaces: int, namespaces: Option<seq<Ptr>>,
                          nbAttributes: int, nbDefaulted: int, attributes: Option<seq<Ptr>>,
                          raised: bool)
    returns (sent: Event)
    requires IsCString(localname) && NullOrCString(prefix) && NullOrCString(uri)
    requires NamespaceArray(nbNamespaces, namespaces) && AttributeArray(nbAttributes, attributes)
    modifies ctxt`stopped
    ensures sent.StartElementNamespace?
    ensures sent.localname == CStr(localname) && sent.prefix == StrOrNil(prefix) && sent.uri == StrOrNil(uri)
    ensures |sent.attributes| == if attributes.Some? && nbAttributes > 0 then nbAttributes else 0
    ensures attributes.Some? ==> forall j :: 0 <= j < |sent.attributes| ==>
      AttributeTuple(attributes.value, j) && sent.attributes[j] == TupleAttribute(attributes.value, j)
    ensures |sent.namespaces| == if namespaces.Some? && nbNamespaces > 0 then nbNamespaces else 0
    ensures namespaces.Some? ==> forall j :: 0 <= j < |sent.namespaces| ==>
      2 * j + 1 < |namespaces.value| &&
      sent.namespaces[j] == Namespace(StrOrNil(namespaces.value[2 * j]), StrOrNil(namespaces.value[2 * j + 1]))
    ensures ctxt.stopped == (old(ctxt.stopped) || raised)
  {
    var attributeList := AttributesAsList(nbAttributes, attributes);
    var nsList := NamespacesAsList(nbNamespaces, namespaces);
    sent := StartElementNamespace(CStr(localname), attributeList, StrOrNil(prefix), StrOrNil(uri), nsList);
    Protect(ctxt, raised);
  }

  method OnEndElementNs(ctxt: Ctxt, localname: Ptr, prefix: Ptr, uri: Ptr, raised: bool) returns (sent: Event)
    requires IsCString(localname) && NullOrCString(prefix) && NullOrCString(uri)
    modifies ctxt`stopped
    ensures sent == EndElementNamespace(CStr(localname), StrOrNil(prefix), StrOrNil(uri))
    ensures ctxt.stopped == (old(ctxt.stopped) || raised)
  {
    sent := EndElementNamespace(CStr(localname), StrOrNil(prefix), StrOrNil(uri));
    Protect(ctxt, raised);
  }

  // ---------------------------------------------------------------------
  // Text, comments and diagnostics

  /** characters: exactly `len` bytes from `ch`, embedded NULs included. */
  method OnCharacters(ctxt: Ctxt, ch: Ptr, len: int, raised: bool) returns (sent: Event)
    requires SpanFits(ch, len)
    modifies ctxt`stopped
    ensures sent.Characters? && |sent.text| == len
    ensures forall i :: 0 <= i < len ==> sent.text[i] == ch.buf[ch.off + i]
    ensures ctxt.stopped == (old(ctxt.stopped) || raised)
  {
    sent := Characters(Span(ch, len));
    Protect(ctxt, raised);
  }

  /** cdata_block: exactly `len` bytes from `value`, like characters. */
  method OnCdataBlock(ctxt: Ctxt, value: Ptr, len: int, raised: bool) returns (sent: Event)
    requires SpanFits(value, len)
    modifies ctxt`stopped
    ensures sent.CdataBlock? && |sent.text| == len
    ensures forall i :: 0 <= i < len ==> sent.text[i] == value.buf[value.off + i]
    ensures ctxt.stopped == (old(ctxt.stopped) || raised)
  {
    sent := CdataBlock(Span(value, len));
    Protect(ctxt, raised);
  }

  /** comment: the text up to the first NUL, so it never contains one. */
  method OnComment(ctxt: Ctxt, value: Ptr, raised: bool) returns (sent: Event)
    requires IsCString(value)
    modifies ctxt`stopped
    ensures sent == Comment(CStr(value))
    ensures forall i :: 0 <= i < |sent.text| ==> sent.text[i] != '\0'
    ensures ctxt.stopped == (old(ctxt.stopped) || raised)
  {
    sent := Comment(CStr(value));
    Protect(ctxt, raised);
  }

  /** warning: the formatted message, as a NUL-terminated string. */
  method OnWarning(ctxt: Ctxt, message: Ptr, raised: bool) returns (sent: Event)
    requires IsCString(message)
    modifies ctxt`stopped
    ensures sent == Warning(CStr(message))
    ensures ctxt.stopped == (old(ctxt.stopped) || raised)
  {
    sent := Warning(CStr(message));
    Protect(ctxt, raised);
  }

  /** error: the formatted message, as a NUL-terminated string. */
  method OnError(ctxt: Ctxt, message: Ptr, raised: bool) returns (sent: Event)
    requires IsCString(message)
    modifies ctxt`stopped
    ensures sent == Error(CStr(message))
    ensures ctxt.stopped == (old(ctxt.stopped) || raised)
  {
    sent := Error(CStr(message));
    Protect(ctxt, raised);
  }
}
