/**
 * Nokogiri::XML::SAX::PushParser (ext/nokogiri/xml_sax_push_parser.c): a
 * session that owns one libxml2 push context, the document the events go
 * to, and the handler fault left pending while the tokenizer ran.
 */
module XmlPushParser {
  import opened Values
  import opened Libxml

  /**
   * What a session does once the tokenizer has returned `ret` on a chunk,
   * with `fault` the handler fault the callbacks left pending (0 for none):
   * a pending fault is re-raised and wins over any grammar error; otherwise
   * the tokenizer's last error is raised iff the call failed and RECOVER is
   * clear.
   */
  function ChunkOutcome(fault: int, ret: int, options: int, lastError: string): (r: Outcome<Raise>)
    ensures fault != 0 ==> r == Fail(Rethrow(fault))
    ensures fault == 0 ==> r == RecoverOutcome(ret, options, lastError)
  {
    if fault != 0 then Fail(Rethrow(fault)) else RecoverOutcome(ret, options, lastError)
  }

  /**
   * The grammar-error policy alone: raise the tokenizer's last error iff the
   * chunk call failed and the RECOVER bit is clear.
   */
  function RecoverOutcome(ret: int, options: int, lastError: string): (r: Outcome<Raise>)
    ensures r.Fail? <==> ret != 0 && !RecoverSet(options)
    ensures r.Fail? ==> r.error == SyntaxError(lastError)
  {
    if ret != 0 && !RecoverSet(options) then Fail(SyntaxError(lastError)) else Pass
  }

  /** A handler fault and a grammar error never both come out of one chunk: the fault wins. */
  lemma FaultWinsOverGrammarError(fault: int, ret: int, options: int, lastError: string)
    requires fault != 0 && RecoverOutcome(ret, options, lastError).Fail?
    ensures ChunkOutcome(fault, ret, options, lastError) == Fail(Rethrow(fault))
    ensures ChunkOutcome(fault, ret, options, lastError) != RecoverOutcome(ret, options, lastError)
  {
  }

  /** The chunk `write` feeds: a nil chunk is fed as zero bytes. */
  function ChunkText(chunk: Option<string>): (s: string)
    ensures chunk.Some? ==> s == chunk.value
    ensures chunk.None? ==> |s| == 0
  {
    if chunk.Some? then chunk.value else ""
  }

  /** The last-chunk flag of `write`: set iff the second argument is not nil. */
  function IsLast(last: Value): (b: bool)
    ensures b <==> last != Nil
  {
    !last.Nil?
  }

  class PushParser {
    var ctx: Ctxt?            // null: the session is uninitialized
    var handler: Value        // the document events are sent to
    var status: int           // a handler fault left pending by the callbacks; 0 for none
    ghost var released: set<Ctxt>   // contexts freed when initialize replaced them
    ghost var seen: seq<int>        // the fault each tokenization left pending, in order

    /** Between calls no fault is pending, and the live context has not been freed. */
    ghost predicate Valid()
      reads this
    {
      status == 0 && (ctx != null ==> ctx !in released)
    }

    /** allocate: no context, a nil handler, nothing pending. */
    constructor ()
      ensures Valid()
      ensures ctx == null && handler == Nil && released == {} && seen == []
    {
      ctx := null;
      handler := Nil;
      status := 0;
      released := {};
      seen := [];
    }

    /**
     * initialize(doc, filename = nil): create a new push context; if that
     * fails raise and leave the session as it was, otherwise free the old
     * context and bind the new one and the document.
     */
    method Initialize(doc: Value, filename: Option<string>) returns (r: Outcome<Raise>)
      requires Valid()
      modifies this
      ensures Valid()
      ensures r.Fail? ==> r.error == RuntimeError(NoContext)
      ensures r.Fail? ==> ctx == old(ctx) && handler == old(handler) && released == old(released)
      ensures r.Pass? ==> fresh(ctx) && ctx.fed == [] && ctx.filename == filename && ctx.sax2 == 1
      ensures r.Pass? ==> handler == doc
      ensures r.Pass? ==> released == old(released) + (if old(ctx) == null then {} else {old(ctx)})
    {
      var c := CreatePushParserCtxt(Nil, filename, None, 0);
      if c == null {
        return Fail(RuntimeError(NoContext));
      }
      if ctx != null {
        released := released + {ctx};
      }
      c.sax2 := 1;
      handler := doc;
      ctx := c;
      r := Pass;
    }

    /**
     * xmlParseChunk on the session's context. The callbacks it runs may leave
     * a handler fault in `status`; nothing is promised about it or the
     * result, but both are recorded: the result in the context's answers, the
     * fault in `seen`.
     */
    method Tokenize(chunk: string, last: bool) returns (ret: int)
      requires ctx != null
      modifies this`status, this`seen, ctx
      ensures ctx.fed == old(ctx.fed) + [Feed(chunk, last)]
      ensures ctx.answers == old(ctx.answers) + [ret] && seen == old(seen) + [status]
    {
      ret := ctx.ParseChunk(chunk, last);
      seen := seen + [status];
    }

    /**
     * write2: feed one chunk. Uninitialized sessions raise before any
     * tokenization. Otherwise, for the tokenizer's return `ret` (the context's
     * newest answer) and the fault `fault` pending when it returned (the
     * newest entry of `seen`), the pending fault is cleared and the outcome is
     * ChunkOutcome(fault, ret, options, last error).
     */
    method Write2(chunk: string, last: bool) returns (r: Outcome<Raise>, ghost ret: int, ghost fault: int)
      requires Valid()
      modifies this`status, this`seen, ctx
      ensures Valid()
      ensures old(ctx) == null ==> r == Fail(RuntimeError(Uninitialized)) && seen == old(seen)
      ensures ctx != null ==> ctx.fed == old(ctx.fed) + [Feed(chunk, last)]
      ensures ctx != null ==> ctx.answers == old(ctx.answers) + [ret] && seen == old(seen) + [fault]
      ensures ctx != null ==> r == ChunkOutcome(fault, ret, ctx.options, ctx.lastError)
    {
      ret, fault := 0, 0;
      if ctx == null {
        return Fail(RuntimeError(Uninitialized)), ret, fault;
      }
      var code := Tokenize(chunk, last);
      ret, fault := code, status;
      if status != 0 {
        var pending := status;
        status := 0;
        return Fail(Rethrow(pending)), ret, fault;
      }
      if code != 0 && !RecoverSet(ctx.options) {
        return Fail(SyntaxError(ctx.lastError)), ret, fault;
      }
      r := Pass;
    }

    /** write(chunk, last_chunk = nil): write2 with a nil chunk as zero bytes, last iff non-nil. */
    method Write(chunk: Option<string>, last: Value) returns (r: Outcome<Raise>, ghost ret: int, ghost fault: int)
      requires Valid()
      modifies this`status, this`seen, ctx
      ensures Valid()
      ensures old(ctx) == null ==> r == Fail(RuntimeError(Uninitialized)) && seen == old(seen)
      ensures ctx != null ==> ctx.fed == old(ctx.fed) + [Feed(ChunkText(chunk), last != Nil)]
      ensures ctx != null ==> ctx.answers == old(ctx.answers) + [ret] && seen == old(seen) + [fault]
      ensures ctx != null ==> r == ChunkOutcome(fault, ret, ctx.options, ctx.lastError)
    {
      r, ret, fault := Write2(ChunkText(chunk), IsLast(last));
    }

    /** finish: write2(NULL, 0, 1), an empty final chunk. */
    method Finish() returns (r: Outcome<Raise>, ghost ret: int, ghost fault: int)
      requires Valid()
      modifies this`status, this`seen, ctx
      ensures Valid()
      ensures old(ctx) == null ==> r == Fail(RuntimeError(Uninitialized)) && seen == old(seen)
      ensures ctx != null ==> ctx.fed == old(ctx.fed) + [Feed("", true)]
      ensures ctx != null ==> ctx.answers == old(ctx.answers) + [ret] && seen == old(seen) + [fault]
      ensures ctx != null ==> r == ChunkOutcome(fault, ret, ctx.options, ctx.lastError)
    {
      r, ret, fault := Write2("", true);
    }

    /** options: the context's option word, verbatim. */
    method Options() returns (r: Result<int, Raise>)
      ensures ctx == null ==> r == Failure(RuntimeError(Uninitialized))
      ensures ctx != null ==> r == Success(ctx.options)
    {
      if ctx == null {
        return Failure(RuntimeError(Uninitialized));
      }
      r := Success(ctx.options);
    }

    /**
     * options=(n): NUM2INT(n) (RangeError outside the C int range), then
     * xmlCtxtUseOptions; a non-zero code `rc` raises. Returns nil.
     */
    method SetOptions(options: int) returns (r: Outcome<Raise>, ghost rc: int)
      requires Valid()
      modifies ctx
      ensures old(ctx) == null ==> r == Fail(RuntimeError(Uninitialized))
      ensures ctx != null ==> ctx.fed == old(ctx.fed)
      ensures ctx != null ==> ctx.input == old(ctx.input) && ctx.stopped == old(ctx.stopped)
      ensures ctx != null ==> ctx.handler == old(ctx.handler) && ctx.lastError == old(ctx.lastError)
      ensures ctx != null && !IsInt32(options) ==> r == Fail(RangeError) && unchanged(ctx)
      ensures ctx != null && IsInt32(options) ==> ctx.answers == old(ctx.answers) + [rc]
      ensures ctx != null && IsInt32(options) ==>
        r == if rc != 0 then Fail(RuntimeError(CannotSetOptions)) else Pass
    {
      rc := 0;
      if ctx == null {
        return Fail(RuntimeError(Uninitialized)), rc;
      }
      if !IsInt32(options) {
        return Fail(RangeError), rc;
      }
      var code := ctx.UseOptions(options);
      rc := code;
      if code != 0 {
        return Fail(RuntimeError(CannotSetOptions)), rc;
      }
      r := Pass;
    }

    /** replace_entities=(v): the flag is cleared for `false` only and set for anything else; returns v. */
    method SetReplaceEntities(value: Value) returns (r: Result<Value, Raise>)
      requires Valid()
      modifies ctx
      ensures ctx == null ==> r == Failure(RuntimeError(Uninitialized))
      ensures ctx != null ==> ctx.fed == old(ctx.fed) && ctx.options == old(ctx.options)
      ensures ctx != null ==> ctx.input == old(ctx.input) && ctx.stopped == old(ctx.stopped)
      ensures ctx != null ==> ctx.handler == old(ctx.handler) && ctx.lastError == old(ctx.lastError)
      ensures ctx != null ==> ctx.answers == old(ctx.answers)
      ensures ctx != null ==> r == Success(value)
      ensures ctx != null ==> (ctx.replaceEntities == 0 <==> value == False)
      ensures ctx != null ==> ctx.replaceEntities in {0, 1}
    {
      if ctx == null {
        return Failure(RuntimeError(Uninitialized));
      }
      if value == False {
        ctx.replaceEntities := 0;
      } else {
        ctx.replaceEntities := 1;
      }
      r := Success(value);
    }

    /** replace_entities: false iff the flag is 0. */
    method ReplaceEntities() returns (r: Result<bool, Raise>)
      ensures ctx == null ==> r == Failure(RuntimeError(Uninitialized))
      ensures ctx != null ==> r.Success? && (r.value <==> ctx.replaceEntities != 0)
    {
      if ctx == null {
        return Failure(RuntimeError(Uninitialized));
      }
      if ctx.replaceEntities == 0 {
        r := Success(false);
      } else {
        r := Success(true);
      }
    }

    /** line: the current input's line, nil when there is no current input. */
    method Line() returns (r: Result<Option<int>, Raise>)
      ensures ctx == null ==> r == Failure(RuntimeError(Uninitialized))
      ensures ctx != null && ctx.input.None? ==> r == Success(None)
      ensures ctx != null && ctx.input.Some? ==> r == Success(Some(ctx.input.value.line))
    {
      if ctx == null {
        return Failure(RuntimeError(Uninitialized));
      }
      if ctx.input.Some? {
        r := Success(Some(ctx.input.value.line));
      } else {
        r := Success(None);
      }
    }

    /** column: the current input's column, nil when there is no current input. */
    method Column() returns (r: Result<Option<int>, Raise>)
      ensures ctx == null ==> r == Failure(RuntimeError(Uninitialized))
      ensures ctx != null && ctx.input.None? ==> r == Success(None)
      ensures ctx != null && ctx.input.Some? ==> r == Success(Some(ctx.input.value.col))
    {
      if ctx == null {
        return Failure(RuntimeError(Uninitialized));
      }
      if ctx.input.Some? {
        r := Success(Some(ctx.input.value.col));
      } else {
        r := Success(None);
      }
    }

    /** document: the bound handler; the one accessor with no initialization check. */
    method Document() returns (d: Value)
      ensures d == handler
    {
      d := handler;
    }

    /** force_encoding(name): switch the context's encoding; a non-zero code `rc` raises. */
    method ForceEncoding(name: string) returns (r: Outcome<Raise>, ghost rc: int)
      requires Valid()
      modifies ctx
      ensures old(ctx) == null ==> r == Fail(RuntimeError(Uninitialized))
      ensures ctx != null ==> ctx.fed == old(ctx.fed) && ctx.options == old(ctx.options)
      ensures ctx != null ==> ctx.replaceEntities == old(ctx.replaceEntities) && ctx.stopped == old(ctx.stopped)
      ensures ctx != null ==> ctx.handler == old(ctx.handler)
      ensures ctx != null ==> ctx.answers == old(ctx.answers) + [rc]
      ensures ctx != null ==> r == if rc != 0 then Fail(RuntimeError(UnsupportedEncoding)) else Pass
    {
      rc := 0;
      if ctx == null {
        return Fail(RuntimeError(Uninitialized)), rc;
      }
      var code := ctx.SwitchToEncoding(name);
      rc := code;
      if code != 0 {
        return Fail(RuntimeError(UnsupportedEncoding)), rc;
      }
      r := Pass;
    }
  }

  /** replace_entities after replace_entities=(v) reads back `v != false`, nil included as true. */
  method ReplaceEntitiesRoundTrip(p: PushParser, v: Value) returns (got: Result<bool, Raise>)
    requires p.Valid() && p.ctx != null
    modifies p.ctx
    ensures got == Success(v != False)
  {
    var _ := p.SetReplaceEntities(v);
    got := p.ReplaceEntities();
  }

  /**
   * Nothing works on a session that was allocated but never initialized,
   * except document: write (of any chunk), finish, options and line all
   * raise "Parser is Uninitialized.", document is nil, and no fault is left
   * pending.
   */
  method UninitializedSession(chunk: Option<string>, last: Value)
    returns (p: PushParser, written: Outcome<Raise>, finished: Outcome<Raise>,
             options: Result<int, Raise>, line: Result<Option<int>, Raise>, document: Value)
    ensures fresh(p) && p.Valid() && p.ctx == null
    ensures written == Fail(RuntimeError(Uninitialized)) && finished == Fail(RuntimeError(Uninitialized))
    ensures options == Failure(RuntimeError(Uninitialized)) && line == Failure(RuntimeError(Uninitialized))
    ensures document == Nil
  {
    p := new PushParser();
    ghost var ret, fault;
    written, ret, fault := p.Write(chunk, last);
    finished, ret, fault := p.Finish();
    options := p.Options();
    line := p.Line();
    document := p.Document();
  }
}
