/**
 * libxml2 as the glue sees it. The tokenizer itself is not modelled: each
 * libxml2 entry point the glue calls is a method whose contract states only
 * what the glue may rely on (which fields it leaves alone, what it records
 * of its input); its return code is unconstrained. The bodies are one
 * admissible behaviour each, and callers see nothing of them.
 */
module Libxml {
  import opened Values

  /** XML_PARSE_RECOVER, bit 0 of libxml2's parser-option word. */
  const XML_PARSE_RECOVER: int := 1

  /** xmlCharEncoding values used by the glue. */
  const XML_CHAR_ENCODING_ERROR: int := -1
  const XML_CHAR_ENCODING_NONE: int := 0

  /**
   * `options & XML_PARSE_RECOVER` is non-zero. Dafny's `%` is Euclidean, so
   * for a negative C int this is still its two's-complement low bit.
   */
  predicate RecoverSet(options: int) {
    options % 2 == XML_PARSE_RECOVER
  }

  /** A location in the input: ctxt->input->line and ->col. */
  datatype Position = Position(line: int, col: int)

  /** One call of the chunk-feeding entry point: the bytes and the terminate flag. */
  datatype Feed = Feed(chunk: string, terminate: bool)

  /** The part of libxml2's xmlParserCtxt that the glue reads or writes. */
  class Ctxt {
    // What the context was created with.
    const filename: Option<string>
    const charEncoding: Option<int>   // None: no determinate value was passed
    // The XML declaration, as the tokenizer records it (read by start_document).
    var html: int
    var standalone: int               // -1: no declaration; 0: "no"; 1: "yes"
    var version: Option<string>
    var encoding: Option<string>
    // Configuration.
    var options: int
    var replaceEntities: int
    var sax2: int
    var handler: Value                // sax->_private: the document the callbacks dispatch to
    // Progress.
    var input: Option<Position>       // ctxt->input; None while there is no current input
    var fed: seq<Feed>                // every chunk handed to the tokenizer, in order
    var stopped: bool                 // xmlStopParser has been called
    var lastError: string             // the message of xmlCtxtGetLastError
    ghost var answers: seq<int>       // the return code of every entry point called on it, in order

    /** A fresh context (xmlCreatePushParserCtxt / htmlCreatePushParserCtxt). */
    constructor (handler: Value, filename: Option<string>, charEncoding: Option<int>, html: int)
      ensures this.handler == handler && this.filename == filename
      ensures this.charEncoding == charEncoding && this.html == html
      ensures fed == [] && !stopped && input.None? && answers == []
    {
      this.filename := filename;
      this.charEncoding := charEncoding;
      this.html := html;
      standalone := -1;
      version, encoding := None, None;
      options, replaceEntities, sax2 := 0, 0, 0;
      this.handler := handler;
      input := None;
      fed := [];
      stopped := false;
      lastError := "";
      answers := [];
    }

    /**
     * xmlParseChunk / htmlParseChunk: tokenize one chunk, running the SAX
     * callbacks as it goes. The result code is unconstrained; the context
     * records the chunk and the code and keeps its handler binding.
     */
    method ParseChunk(chunk: string, terminate: bool) returns (ret: int)
      modifies this
      ensures fed == old(fed) + [Feed(chunk, terminate)]
      ensures answers == old(answers) + [ret]
      ensures handler == old(handler) && sax2 == old(sax2)
    {
      fed := fed + [Feed(chunk, terminate)];
      ret := 0;
      answers := answers + [ret];
    }

    /**
     * xmlCtxtUseOptions: apply an option word; non-zero when libxml2 rejects
     * some of it. Options such as XML_PARSE_NOENT also set the matching
     * context flags, so replaceEntities may change as well.
     */
    method UseOptions(opts: int) returns (rc: int)
      modifies this`options, this`replaceEntities, this`answers
      ensures answers == old(answers) + [rc]
    {
      options := opts;
      rc := 0;
      answers := answers + [rc];
    }

    /**
     * xmlFindCharEncodingHandler followed by xmlSwitchToEncoding: non-zero
     * when the named encoding is unknown or cannot be switched to. A failure
     * may be reported through the context's last error.
     */
    method SwitchToEncoding(name: string) returns (rc: int)
      modifies this`input, this`lastError, this`answers
      ensures answers == old(answers) + [rc]
    {
      rc := 0;
      answers := answers + [rc];
    }

    /** xmlStopParser: no further callbacks once it has been called. */
    method Stop()
      modifies this`stopped
      ensures stopped
    {
      stopped := true;
    }
  }

  /**
   * xmlCreatePushParserCtxt / htmlCreatePushParserCtxt: a fresh context, or
   * null when libxml2 cannot allocate one.
   */
  method CreatePushParserCtxt(handler: Value, filename: Option<string>, charEncoding: Option<int>, html: int)
    returns (c: Ctxt?)
    ensures c != null ==> fresh(c) && c.fed == [] && !c.stopped && c.answers == []
    ensures c != null ==> c.handler == handler && c.filename == filename
    ensures c != null ==> c.charEncoding == charEncoding && c.html == html
  {
    c := new Ctxt(handler, filename, charEncoding, html);
  }

  /** libxml2's process-wide table of character encodings, as far as name lookups go. */
  class Charsets {
    ghost var answers: seq<int>   // the id every lookup returned, in order

    constructor ()
      ensures answers == []
    {
      answers := [];
    }

    /**
     * xmlParseCharEncoding: an encoding id, or XML_CHAR_ENCODING_ERROR for an
     * unknown name. The id is unconstrained; the table records it.
     */
    method ParseCharEncoding(name: string) returns (enc: int)
      modifies this`answers
      ensures answers == old(answers) + [enc]
    {
      enc := XML_CHAR_ENCODING_NONE;
      answers := answers + [enc];
    }
  }
}
