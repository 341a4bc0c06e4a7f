/**
 * Nokogiri::HTML::SAX::NativeParser (ext/nokogiri/html_sax_native_parser.c):
 * an HTML push context driven by the Ruby SAX parser. Like the HTML push
 * parser it raises the tokenizer's last error unless RECOVER is set, but
 * takes its encoding as a raw integer id and returns self from write and
 * finish.
 */
module HtmlNativeParser {
  import opened Values
  import opened Libxml
  import opened XmlPushParser

  class HtmlNativeParser {
    var ctx: Ctxt?                  // DATA_PTR(self)
    ghost var abandoned: set<Ctxt>  // contexts replaced by initialize without being freed
    ghost var forced: seq<Option<int>>   // the ids force_encoding has been called with
    ghost var forceResults: seq<Outcome<Raise>>  // and what each of those calls gave

    constructor ()
      ensures ctx == null && abandoned == {} && forced == [] && forceResults == []
    {
      ctx := null;
      abandoned := {};
      forced := [];
      forceResults := [];
    }

    /**
     * initialize(doc, filename = nil, encoding = nil): a given encoding is
     * converted with NUM2INT and used as the id without any validation (so
     * only an out-of-range Integer raises); a context is created with the
     * callbacks built for `doc`, and creation failure raises RuntimeError.
     * With no encoding the id passed is indeterminate (recorded as None).
     */
    method Initialize(doc: Value, filename: Option<string>, encoding: Option<int>) returns (r: Outcome<Raise>)
      modifies this
      ensures encoding.Some? && !IsInt32(encoding.value) <==> r == Fail(RangeError)
      ensures r.Fail? ==> r.error in {RangeError, RuntimeError(NoContext)}
      ensures r.Fail? ==> ctx == old(ctx) && abandoned == old(abandoned)
      ensures r.Pass? ==> fresh(ctx) && ctx.fed == [] && ctx.filename == filename
      ensures r.Pass? ==> ctx.handler == doc && ctx.charEncoding == encoding && ctx.html == 1 && ctx.sax2 == 1
      ensures r.Pass? ==> abandoned == old(abandoned) + (if old(ctx) == null then {} else {old(ctx)})
      ensures forced == old(forced) && forceResults == old(forceResults)
    {
      if encoding.Some? && !IsInt32(encoding.value) {
        return Fail(RangeError);
      }
      var c := CreatePushParserCtxt(doc, filename, encoding, 1);
      if c == null {
        return Fail(RuntimeError(NoContext));
      }
      c.sax2 := 1;
      if ctx != null {
        abandoned := abandoned + {ctx};
      }
      ctx := c;
      r := Pass;
    }

    /**
     * force_encoding(id), inherited from Nokogiri::XML::SAX::NativeParser,
     * whose C code is not part of this model: the call and its outcome are
     * recorded, and the outcome is not constrained.
     */
    method ForceEncoding(id: Option<int>) returns (r: Outcome<Raise>)
      modifies this`forced, this`forceResults
      ensures forced == old(forced) + [id] && forceResults == old(forceResults) + [r]
    {
      r := Pass;
      forced := forced + [id];
      forceResults := forceResults + [r];
    }

    /** write2: raise the last error iff htmlParseChunk returned `ret` != 0 and RECOVER is clear. */
    method Write2(chunk: string, last: bool) returns (r: Outcome<Raise>, ghost ret: int)
      requires ctx != null
      modifies ctx
      ensures ctx.fed == old(ctx.fed) + [Feed(chunk, last)]
      ensures ctx.handler == old(ctx.handler)
      ensures ctx.answers == old(ctx.answers) + [ret]
      ensures r == RecoverOutcome(ret, ctx.options, ctx.lastError)
    {
      var code := ctx.ParseChunk(chunk, last);
      ret := code;
      if code != 0 {
        if !RecoverSet(ctx.options) {
          return Fail(SyntaxError(ctx.lastError)), ret;
        }
      }
      r := Pass;
    }

    /** write(chunk, last_chunk = nil): a nil chunk is zero bytes, final iff the second argument is non-nil; returns self. */
    method Write(chunk: Option<string>, last: Value) returns (r: Outcome<Raise>, ghost ret: int)
      requires ctx != null
      modifies ctx
      ensures ctx.fed == old(ctx.fed) + [Feed(ChunkText(chunk), last != Nil)]
      ensures ctx.handler == old(ctx.handler)
      ensures ctx.answers == old(ctx.answers) + [ret]
      ensures r == RecoverOutcome(ret, ctx.options, ctx.lastError)
    {
      r, ret := Write2(ChunkText(chunk), IsLast(last));
    }

    /** finish: feeds (NULL, 0, last = 1) and returns self. */
    method Finish() returns (r: Outcome<Raise>, ghost ret: int)
      requires ctx != null
      modifies ctx
      ensures ctx.fed == old(ctx.fed) + [Feed("", true)]
      ensures ctx.handler == old(ctx.handler)
      ensures ctx.answers == old(ctx.answers) + [ret]
      ensures r == RecoverOutcome(ret, ctx.options, ctx.lastError)
    {
      r, ret := Write2("", true);
    }
  }
}
