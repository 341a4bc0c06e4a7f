/**
 * Nokogiri::HTML::SAX::Parser (lib/nokogiri/html/sax/parser.rb): the XML
 * driver with its own parse_io and parse_memory, which build an HTML native
 * parser (ext/nokogiri/html_sax_native_parser.c) whose encoding id comes
 * from the XML ENCODINGS table. `parse` and `parse_file` are inherited from
 * the XML driver; here they dispatch to the HTML versions. What reaches the
 * tokenizer is the context's record of fed chunks.
 */
module HtmlSaxParser {
  import opened Values
  import opened Libxml
  import N = HtmlNativeParser
  import opened SaxParser

  /** Feeds of each chunk as a non-final write. */
  function Feeds(chunks: seq<string>): (feeds: seq<Feed>)
  {
    seq(|chunks|, i requires 0 <= i < |chunks| => Feed(chunks[i], false))
  }

  /**
   * _parse_io(parser, io) over the HTML native parser: each read up to the
   * first nil or empty one is fed as a non-final chunk, then one empty final
   * chunk; `rescue nil` swallows what the writes and the finish raise.
   */
  method FeedHtmlIo(parser: N.HtmlNativeParser, io: Io)
    requires parser.ctx != null
    modifies parser.ctx, io
    ensures parser.ctx.fed == old(parser.ctx.fed) + Feeds(Drained(old(io.pending))) + [Feed("", true)]
    ensures parser.ctx.handler == old(parser.ctx.handler)
    ensures io.pending == Unread(old(io.pending))
  {
    ghost var results := io.pending;
    ghost var chunks := Drained(results);
    ghost var start := parser.ctx.fed;
    ghost var n := 0;
    var data := io.Read();
    while data.Some? && data.value != ""
      invariant n <= |chunks|
      invariant parser.ctx.fed == start + Feeds(chunks[..n])
      invariant parser.ctx.handler == old(parser.ctx.handler)
      invariant n < |results| ==> data == results[n] && io.pending == results[n + 1..]
      invariant n >= |results| ==> data.None? && io.pending == []
      decreases |results| - n
    {
      assert n < |chunks| && chunks[n] == data.value;
      var _, _ := parser.Write(data, Nil);
      assert Feeds(chunks[..n + 1]) == Feeds(chunks[..n]) + [Feed(chunks[n], false)];
      n := n + 1;
      data := io.Read();
    }
    assert n == |chunks|;
    assert chunks[..n] == chunks;
    var _, _ := parser.Finish();
  }

  class HtmlSaxParser {
    var document: Value
    var encoding: string
    var filename: Option<string>

    /** new(doc, encoding = 'UTF-8'). */
    constructor (doc: Value, encoding: string := "UTF-8")
      ensures document == doc && this.encoding == encoding && filename.None?
    {
      document := doc;
      this.encoding := encoding;
      filename := None;
    }

    /**
     * get_parser: resolve the encoding name through ENCODINGS (nil when
     * unknown), build a native parser for the document, the file name and
     * that id, then force the same id. Since every table id fits a C int,
     * building it never raises RangeError: when no parser gets `built`, the
     * failure is a context that cannot be created; otherwise the outcome is
     * whatever force_encoding gave, and the parser is handed back iff that
     * passed.
     */
    method GetParser() returns (r: Outcome<Raise>, native: N.HtmlNativeParser?, ghost built: N.HtmlNativeParser?)
      ensures built == null ==> r == Fail(RuntimeError(NoContext)) && native == null
      ensures built != null ==> fresh(built) && built.ctx != null && fresh(built.ctx)
      ensures built != null ==> built.ctx.handler == document && built.ctx.filename == filename
      ensures built != null ==> built.ctx.charEncoding == EncodingId(encoding) && built.ctx.html == 1
      ensures built != null ==> built.ctx.fed == [] && built.forced == [EncodingId(encoding)]
      ensures built != null ==> built.forceResults == [r] && native == (if r.Pass? then built else null)
      ensures r.Pass? <==> native != null
      ensures native != null ==> fresh(native) && native.ctx != null && fresh(native.ctx)
      ensures native != null ==> native.ctx.handler == document && native.ctx.filename == filename
      ensures native != null ==> native.ctx.charEncoding == EncodingId(encoding) && native.ctx.html == 1
      ensures native != null ==> native.ctx.fed == [] && native.forced == [EncodingId(encoding)]
    {
      var id := EncodingId(encoding);
      var p := new N.HtmlNativeParser();
      var made := p.Initialize(document, filename, id);
      if made.Fail? {
        return made, null, null;
      }
      var forced := p.ForceEncoding(id);
      built := p;
      if forced.Fail? {
        return forced, null, built;
      }
      native := p;
      r := Pass;
    }

    /**
     * parse_memory(data, encoding = 'UTF-8'): nil and "" are rejected before
     * the encoding is stored, so a rejected call changes nothing; otherwise
     * the data is fed as one final chunk and its failure is swallowed.
     */
    method ParseMemory(data: Option<string>, encoding: string := "UTF-8")
      returns (r: Outcome<Raise>, native: N.HtmlNativeParser?)
      modifies this
      ensures data.None? ==> r == Fail(ArgumentError(BareArgumentError)) && unchanged(this)
      ensures data == Some("") ==> r == Fail(RuntimeError(EmptyData)) && unchanged(this)
      ensures data.Some? && data.value != "" ==> this.encoding == encoding
      ensures document == old(document) && filename == old(filename)
      ensures r.Pass? <==> native != null
      ensures native != null ==> data.Some? && data.value != "" && fresh(native) && native.ctx != null && fresh(native.ctx)
      ensures native != null ==> native.ctx.handler == document && native.ctx.charEncoding == EncodingId(encoding)
      ensures native != null ==> native.ctx.fed == [Feed(data.value, true)]
    {
      if data.None? {
        return Fail(ArgumentError(BareArgumentError)), null;
      }
      if data.value == "" {
        return Fail(RuntimeError(EmptyData)), null;
      }
      this.encoding := encoding;
      ghost var built;
      r, native, built := GetParser();
      if native != null {
        var _, _ := native.Write(data, True);
      }
    }

    /**
     * parse_io(io, encoding = 'ASCII'): store the encoding, get a parser for
     * it and drain the IO into it.
     */
    method ParseIo(io: Io, encoding: string := "ASCII") returns (r: Outcome<Raise>, native: N.HtmlNativeParser?)
      modifies this, io
      ensures this.encoding == encoding && document == old(document) && filename == old(filename)
      ensures r.Pass? <==> native != null
      ensures native == null ==> io.pending == old(io.pending)
      ensures native != null ==> fresh(native) && native.ctx != null && fresh(native.ctx)
      ensures native != null ==> native.ctx.handler == document && native.ctx.charEncoding == EncodingId(encoding)
      ensures native != null ==> native.ctx.filename == filename
      ensures native != null ==> native.ctx.fed == Feeds(Drained(old(io.pending))) + [Feed("", true)]
      ensures native != null ==> io.pending == Unread(old(io.pending))
    {
      this.encoding := encoding;
      ghost var built;
      r, native, built := GetParser();
      if native != null {
        FeedHtmlIo(native, io);
      }
    }

    /** parse(thing), inherited: an IO goes to parse_io, anything else to parse_memory. */
    method Parse(thing: Thing) returns (r: Outcome<Raise>, native: N.HtmlNativeParser?)
      modifies this, Touched(thing)
      ensures document == old(document) && filename == old(filename)
      ensures r.Pass? <==> native != null
      ensures thing.Stream? ==> encoding == "ASCII"
      ensures thing.Stream? && native != null ==>
        native.ctx != null && native.ctx.fed == Feeds(Drained(old(thing.io.pending))) + [Feed("", true)]
      ensures thing.Data? && thing.text.Some? && thing.text.value != "" ==> encoding == "UTF-8"
      ensures thing.Data? && native != null ==>
        thing.text.Some? && thing.text.value != "" && native.ctx != null &&
        native.ctx.fed == [Feed(thing.text.value, true)]
      ensures thing == Data(None) ==> r == Fail(ArgumentError(BareArgumentError))
      ensures thing == Data(Some("")) ==> r == Fail(RuntimeError(EmptyData))
      ensures thing.Data? && (thing.text.None? || thing.text == Some("")) ==> encoding == old(encoding)
    {
      match thing
      case Stream(io) =>
        r, native := ParseIo(io);
      case Data(text) =>
        r, native := ParseMemory(text);
    }

    /** parse_file(filename, encoding = 'UTF-8'), inherited: the XML driver's checks, then parse_io. */
    method ParseFile(filename: Option<string>, present: bool, directory: bool, file: Io, encoding: string := "UTF-8")
      returns (r: Outcome<Raise>, native: N.HtmlNativeParser?)
      modifies this, file
      ensures FileCheck(filename, present, directory).Some? ==>
        r == Fail(FileCheck(filename, present, directory).value) && native == null &&
        unchanged(this) && unchanged(file)
      ensures FileCheck(filename, present, directory).None? ==>
        this.filename == filename && this.encoding == encoding && document == old(document)
      ensures r.Pass? <==> native != null
      ensures native != null ==> native.ctx != null && native.ctx.filename == filename
      ensures native != null ==> native.ctx.fed == Feeds(Drained(old(file.pending))) + [Feed("", true)]
    {
      var check := FileCheck(filename, present, directory);
      if check.Some? {
        return Fail(check.value), null;
      }
      this.filename := filename;
      r, native := ParseIo(file, encoding);
    }
  }
}
