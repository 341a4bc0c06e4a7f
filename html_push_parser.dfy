/**
 * Nokogiri::HTML::SAX::PushParser (ext/nokogiri/html_sax_push_parser.c):
 * the same feed/finish policy as the XML push parser over an HTML context,
 * without the pending-fault check. The context pointer is the object's
 * data pointer; the document is bound through the context's sax->_private.
 */
module HtmlPushParser {
  import opened Values
  import opened Libxml
  import opened XmlPushParser

  class HtmlPushParser {
    var ctx: Ctxt?                  // DATA_PTR(self)
    ghost var abandoned: set<Ctxt>  // contexts replaced by initialize without being freed

    constructor ()
      ensures ctx == null && abandoned == {}
    {
      ctx := null;
      abandoned := {};
    }

    /**
     * initialize(doc, filename = nil, encoding = nil): an encoding that is
     * given is looked up first in libxml2's table `charsets` (`enc` is its
     * answer) and an unknown one raises ArgumentError before any context
     * exists; an absent one is XML_CHAR_ENCODING_NONE and is not looked up. A context that cannot be created raises. The
     * new context gets the document as sax->_private and replaces the data
     * pointer; the old context is not freed.
     */
    method Initialize(doc: Value, filename: Option<string>, encoding: Option<string>, charsets: Charsets)
      returns (r: Outcome<Raise>, ghost enc: int)
      modifies this, charsets`answers
      ensures encoding.None? ==> enc == XML_CHAR_ENCODING_NONE && charsets.answers == old(charsets.answers)
      ensures encoding.Some? ==> charsets.answers == old(charsets.answers) + [enc]
      ensures r == Fail(ArgumentError(UnsupportedEncoding)) <==> encoding.Some? && enc == XML_CHAR_ENCODING_ERROR
      ensures r.Fail? && r.error != ArgumentError(UnsupportedEncoding) ==> r.error == RuntimeError(NoContext)
      ensures r.Fail? ==> ctx == old(ctx)
      ensures r.Fail? ==> abandoned == old(abandoned)
      ensures r.Pass? ==> fresh(ctx) && ctx.fed == [] && ctx.filename == filename
      ensures r.Pass? ==> ctx.handler == doc && ctx.charEncoding == Some(enc) && ctx.html == 1 && ctx.sax2 == 1
      ensures r.Pass? ==> abandoned == old(abandoned) + (if old(ctx) == null then {} else {old(ctx)})
    {
      var e := XML_CHAR_ENCODING_NONE;
      if encoding.Some? {
        e := charsets.ParseCharEncoding(encoding.value);
        if e == XML_CHAR_ENCODING_ERROR {
          return Fail(ArgumentError(UnsupportedEncoding)), e;
        }
      }
      enc := e;
      var c := CreatePushParserCtxt(Nil, filename, Some(e), 1);
      if c == null {
        return Fail(RuntimeError(NoContext)), enc;
      }
      c.handler := doc;
      c.sax2 := 1;
      if ctx != null {
        abandoned := abandoned + {ctx};
      }
      ctx := c;
      r := Pass;
    }

    /**
     * write2: feed one chunk; raise the last error iff htmlParseChunk
     * returned `ret` != 0 and RECOVER is clear. No handler fault is checked.
     */
    method Write2(chunk: string, last: bool) returns (r: Outcome<Raise>, ghost ret: int)
      requires ctx != null
      modifies ctx
      ensures ctx.fed == old(ctx.fed) + [Feed(chunk, last)]
      ensures ctx.handler == old(ctx.handler)
      ensures ctx.answers == old(ctx.answers) + [ret]
      ensures r == RecoverOutcome(ret, ctx.options, ctx.lastError)
    {
      var code := ctx.ParseChunk(chunk, last);
      ret := code;
      if code != 0 {
        if !RecoverSet(ctx.options) {
          return Fail(SyntaxError(ctx.lastError)), ret;
        }
      }
      r := Pass;
    }

    /** write(chunk, last_chunk = nil): a nil chunk is zero bytes; any non-nil second argument makes it final. */
    method Write(chunk: Option<string>, last: Value) returns (r: Outcome<Raise>, ghost ret: int)
      requires ctx != null
      modifies ctx
      ensures ctx.fed == old(ctx.fed) + [Feed(ChunkText(chunk), last != Nil)]
      ensures ctx.handler == old(ctx.handler)
      ensures ctx.answers == old(ctx.answers) + [ret]
      ensures r == RecoverOutcome(ret, ctx.options, ctx.lastError)
    {
      r, ret := Write2(ChunkText(chunk), IsLast(last));
    }

    /** finish: an empty final chunk. */
    method Finish() returns (r: Outcome<Raise>, ghost ret: int)
      requires ctx != null
      modifies ctx
      ensures ctx.fed == old(ctx.fed) + [Feed("", true)]
      ensures ctx.handler == old(ctx.handler)
      ensures ctx.answers == old(ctx.answers) + [ret]
      ensures r == RecoverOutcome(ret, ctx.options, ctx.lastError)
    {
      r, ret := Write2("", true);
    }
  }

  /**
   * The HTML chunk policy is the XML one with no fault ever pending: on the
   * same tokenizer answer both raise the same grammar error or none.
   */
  lemma HtmlPolicyIsXmlPolicyWithoutFault(ret: int, options: int, lastError: string)
    ensures RecoverOutcome(ret, options, lastError) == ChunkOutcome(0, ret, options, lastError)
  {
  }
}
