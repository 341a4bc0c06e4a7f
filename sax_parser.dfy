/**
 * Nokogiri::XML::SAX::Parser (lib/nokogiri/xml/sax/parser.rb): the Ruby
 * driver that validates its input, builds a native parser for the handler
 * document and feeds it either one in-memory string or the successive reads
 * of an IO. The native parser's own C code is not part of this model: it is
 * a collaborator that records what it is asked to do and may raise at any
 * call. The file system is reduced to the answers of its two queries and the
 * reads of the opened file.
 */
module SaxParser {
  import opened Values

  /** ENCODINGS: libxml2's xmlCharEncoding id for each supported encoding name. */
  const Encodings: map<string, int> := map[
    "NONE" := 0, "UTF-8" := 1, "UTF16LE" := 2, "UTF16BE" := 3, "UCS4LE" := 4, "UCS4BE" := 5,
    "EBCDIC" := 6, "UCS4-2143" := 7, "UCS4-3412" := 8, "UCS2" := 9, "ISO-8859-1" := 10,
    "ISO-8859-2" := 11, "ISO-8859-3" := 12, "ISO-8859-4" := 13, "ISO-8859-5" := 14,
    "ISO-8859-6" := 15, "ISO-8859-7" := 16, "ISO-8859-8" := 17, "ISO-8859-9" := 18,
    "ISO-2022-JP" := 19, "SHIFT-JIS" := 20, "EUC-JP" := 21, "ASCII" := 22]

  /** The table's names in id order. */
  const EncodingNames: seq<string> := [
    "NONE", "UTF-8", "UTF16LE", "UTF16BE", "UCS4LE", "UCS4BE", "EBCDIC",
    "UCS4-2143", "UCS4-3412", "UCS2", "ISO-8859-1", "ISO-8859-2", "ISO-8859-3",
    "ISO-8859-4", "ISO-8859-5", "ISO-8859-6", "ISO-8859-7", "ISO-8859-8",
    "ISO-8859-9", "ISO-2022-JP", "SHIFT-JIS", "EUC-JP", "ASCII"]

  lemma NamesHaveTheirIds()
    ensures forall i :: 0 <= i < |EncodingNames| ==> EncodingNames[i] in Encodings && Encodings[EncodingNames[i]] == i
  {
  }

  lemma EveryKeyIsNamed()
    ensures forall name :: name in Encodings ==> name in EncodingNames
  {
  }

  /**
   * The table is a bijection between its 23 names and the ids 0..22: every
   * id is in range, every id in range is used, and no two names share one.
   */
  lemma EncodingTable()
    ensures |EncodingNames| == 23
    ensures forall name :: name in Encodings ==> 0 <= Encodings[name] < |EncodingNames|
    ensures forall i :: 0 <= i < |EncodingNames| ==> i in Encodings.Values
    ensures forall a, b :: a in Encodings && b in Encodings && Encodings[a] == Encodings[b] ==> a == b
  {
    NamesHaveTheirIds();
    EveryKeyIsNamed();
    forall i | 0 <= i < |EncodingNames|
      ensures i in Encodings.Values
    {
      assert Encodings[EncodingNames[i]] == i;
    }
    forall a, b | a in Encodings && b in Encodings && Encodings[a] == Encodings[b]
      ensures a == b
    {
      var x :| 0 <= x < |EncodingNames| && EncodingNames[x] == a;
      var y :| 0 <= y < |EncodingNames| && EncodingNames[y] == b;
    }
  }

  /** `ENCODINGS[name]`: the id, or nil for a name the table does not hold. */
  function EncodingId(name: string): (id: Option<int>)
    ensures id.Some? <==> name in Encodings
    ensures id.Some? ==> Encodings[name] == id.value && 0 <= id.value < 23 && IsInt32(id.value)
  {
    if name in Encodings then
      EncodingTable();
      Some(Encodings[name])
    else
      None
  }

  /** A call the driver makes on a native parser. */
  datatype Call = Write(data: string, last: bool) | Finish

  /**
   * Nokogiri::XML::SAX::NativeParser as the driver uses it: built for a
   * document and a file name, then fed chunks. Each call is recorded and
   * may raise.
   */
  class NativeParser {
    const document: Value
    const filename: Option<string>
    var calls: seq<Call>

    constructor (document: Value, filename: Option<string>)
      ensures this.document == document && this.filename == filename && calls == []
    {
      this.document := document;
      this.filename := filename;
      calls := [];
    }

    /** write(data, last_chunk): the outcome is not constrained. */
    method Write(data: string, last: bool) returns (r: Outcome<Raise>)
      modifies this`calls
      ensures calls == old(calls) + [Call.Write(data, last)]
    {
      calls := calls + [Call.Write(data, last)];
      r := Pass;
    }

    /** finish: the outcome is not constrained. */
    method Finish() returns (r: Outcome<Raise>)
      modifies this`calls
      ensures calls == old(calls) + [Call.Finish]
    {
      calls := calls + [Call.Finish];
      r := Pass;
    }
  }

  /** NativeParser.new(doc, filename): a fresh parser that has seen no call, or an exception. */
  method NewNativeParser(document: Value, filename: Option<string>) returns (r: Result<NativeParser, Raise>)
    ensures r.Success? ==> fresh(r.value) && r.value.calls == []
    ensures r.Success? ==> r.value.document == document && r.value.filename == filename
  {
    var p := new NativeParser(document, filename);
    r := Success(p);
  }

  /**
   * An IO: `pending` holds what its successive `read` calls return; once
   * they are used up it returns nil.
   */
  class Io {
    var pending: seq<Option<string>>

    constructor (results: seq<Option<string>>)
      ensures pending == results
    {
      pending := results;
    }

    method Read() returns (data: Option<string>)
      modifies this
      ensures old(pending) == [] ==> data.None? && pending == []
      ensures old(pending) != [] ==> data == old(pending)[0] && pending == old(pending)[1..]
    {
      if pending == [] {
        data := None;
      } else {
        data := pending[0];
        pending := pending[1..];
      }
    }
  }

  /**
   * The chunks `_parse_io` writes for a sequence of read results: every read up to
   * the first one that is nil or empty, in order.
   */
  function Drained(results: seq<Option<string>>): (written: seq<string>)
    ensures |written| <= |results|
    ensures forall i :: 0 <= i < |written| ==> results[i] == Some(written[i]) && written[i] != ""
    ensures |written| < |results| ==> results[|written|].None? || results[|written|] == Some("")
  {
    if results == [] || results[0].None? || results[0] == Some("") then []
    else [results[0].value] + Drained(results[1..])
  }

  /** The read results left unconsumed: the terminating read (if any) is consumed too. */
  function Unread(results: seq<Option<string>>): (rest: seq<Option<string>>)
  {
    var n := |Drained(results)|;
    if n < |results| then results[n + 1..] else []
  }

  /**
   * Draining is compositional: reads that all return data are written in
   * full, and what follows is drained after them. So a script of reads can
   * be split at any point before its terminating read without changing the
   * chunks `_parse_io` writes.
   */
  lemma {:induction false} DrainedAppend(full: seq<Option<string>>, rest: seq<Option<string>>)
    requires forall i :: 0 <= i < |full| ==> full[i].Some? && full[i].value != ""
    ensures Drained(full + rest) == (seq(|full|, i requires 0 <= i < |full| => full[i].value)) + Drained(rest)
  {
    if full != [] {
      assert (full + rest)[1..] == full[1..] + rest;
      DrainedAppend(full[1..], rest);
    } else {
      assert full + rest == rest;
    }
  }

  /** Writes of each chunk with no last-chunk argument. */
  function WriteCalls(chunks: seq<string>): (calls: seq<Call>)
  {
    seq(|chunks|, i requires 0 <= i < |chunks| => Call.Write(chunks[i], false))
  }

  /**
   * _parse_io(parser, io): write each read until one is nil or empty, then
   * finish exactly once; `rescue nil` swallows what the writes and the
   * finish raise (every raise here is taken to be a StandardError), so the
   * calls made do not depend on their outcomes.
   */
  method FeedIo(parser: NativeParser, io: Io)
    modifies parser, io
    ensures parser.calls == old(parser.calls) + WriteCalls(Drained(old(io.pending))) + [Call.Finish]
    ensures io.pending == Unread(old(io.pending))
  {
    ghost var results := io.pending;
    ghost var chunks := Drained(results);
    ghost var start := parser.calls;
    ghost var n := 0;
    var data := io.Read();
    while data.Some? && data.value != ""
      invariant n <= |chunks|
      invariant parser.calls == start + WriteCalls(chunks[..n])
      invariant n < |results| ==> data == results[n] && io.pending == results[n + 1..]
      invariant n >= |results| ==> data.None? && io.pending == []
      decreases |results| - n
    {
      assert n < |chunks| && chunks[n] == data.value;
      var _ := parser.Write(data.value, false);
      assert WriteCalls(chunks[..n + 1]) == WriteCalls(chunks[..n]) + [Call.Write(chunks[n], false)];
      n := n + 1;
      data := io.Read();
    }
    assert n == |chunks|;
    assert chunks[..n] == chunks;
    var _ := parser.Finish();
  }

  /** What `parse` is given: a string (or nil), or an object that responds to `read` and `close`. */
  datatype Thing = Data(text: Option<string>) | Stream(io: Io)

  /** The objects parsing a thing may change. */
  function Touched(thing: Thing): (objs: set<object>)
  {
    if thing.Stream? then {thing.io} else {}
  }

  /**
   * parse_file's checks, in their order: a nil name raises ArgumentError, a
   * missing file ENOENT, a directory EISDIR; None lets the parse go on.
   */
  function FileCheck(filename: Option<string>, present: bool, directory: bool): (e: Option<Raise>)
    ensures e.None? <==> filename.Some? && present && !directory
    ensures filename.None? ==> e == Some(ArgumentError(BareArgumentError))
    ensures filename.Some? && !present ==> e == Some(NoSuchFile)
    ensures filename.Some? && present && directory ==> e == Some(IsADirectory)
  {
    if filename.None? then Some(ArgumentError(BareArgumentError))
    else if !present then Some(NoSuchFile)
    else if directory then Some(IsADirectory)
    else None
  }

  class SaxParser {
    var document: Value
    var encoding: string
    var filename: Option<string>

    /** new(doc, encoding = 'UTF-8'): no file name yet. */
    constructor (doc: Value, encoding: string := "UTF-8")
      ensures document == doc && this.encoding == encoding && filename.None?
    {
      document := doc;
      this.encoding := encoding;
      filename := None;
    }

    /**
     * parse_memory(data, encoding = 'UTF-8'): the encoding is stored before
     * anything is checked; nil raises ArgumentError and "" raises "data
     * cannot be empty"; otherwise a native parser without a file name gets
     * the whole data as one final chunk and its failure is swallowed.
     */
    method ParseMemory(data: Option<string>, encoding: string := "UTF-8")
      returns (r: Outcome<Raise>, native: NativeParser?)
      modifies this
      ensures this.encoding == encoding && document == old(document) && filename == old(filename)
      ensures data.None? ==> r == Fail(ArgumentError(BareArgumentError))
      ensures data == Some("") ==> r == Fail(RuntimeError(EmptyData))
      ensures r.Pass? <==> native != null
      ensures native != null ==> data.Some? && data.value != "" && fresh(native)
      ensures native != null ==> native.document == document && native.filename.None?
      ensures native != null ==> native.calls == [Call.Write(data.value, true)]
    {
      this.encoding := encoding;
      if data.None? {
        return Fail(ArgumentError(BareArgumentError)), null;
      }
      if data.value == "" {
        return Fail(RuntimeError(EmptyData)), null;
      }
      var made := NewNativeParser(document, None);
      if made.Failure? {
        return Fail(made.error), null;
      }
      native := made.value;
      var _ := native.Write(data.value, true);
      r := Pass;
    }

    /**
     * parse_io(io, encoding = 'ASCII'): store the encoding, build a native
     * parser for the document and the current file name, and drain the IO
     * into it.
     */
    method ParseIo(io: Io, encoding: string := "ASCII") returns (r: Outcome<Raise>, native: NativeParser?)
      modifies this, io
      ensures this.encoding == encoding && document == old(document) && filename == old(filename)
      ensures r.Pass? <==> native != null
      ensures native == null ==> io.pending == old(io.pending)
      ensures native != null ==> fresh(native) && native.document == document && native.filename == filename
      ensures native != null ==> native.calls == WriteCalls(Drained(old(io.pending))) + [Call.Finish]
      ensures native != null ==> io.pending == Unread(old(io.pending))
    {
      this.encoding := encoding;
      var made := NewNativeParser(document, filename);
      if made.Failure? {
        return Fail(made.error), null;
      }
      native := made.value;
      FeedIo(native, io);
      r := Pass;
    }

    /** parse(thing): an IO goes to parse_io, anything else to parse_memory, each with its default encoding. */
    method Parse(thing: Thing) returns (r: Outcome<Raise>, native: NativeParser?)
      modifies this, Touched(thing)
      ensures document == old(document) && filename == old(filename)
      ensures r.Pass? <==> native != null
      ensures thing.Stream? ==> encoding == "ASCII"
      ensures thing.Stream? && native != null ==>
        native.filename == filename && native.calls == WriteCalls(Drained(old(thing.io.pending))) + [Call.Finish]
      ensures thing.Data? ==> encoding == "UTF-8"
      ensures thing.Data? && native != null ==>
        thing.text.Some? && thing.text.value != "" && native.filename.None? &&
        native.calls == [Call.Write(thing.text.value, true)]
      ensures thing == Data(None) ==> r == Fail(ArgumentError(BareArgumentError))
      ensures thing == Data(Some("")) ==> r == Fail(RuntimeError(EmptyData))
    {
      match thing
      case Stream(io) =>
        r, native := ParseIo(io);
      case Data(text) =>
        r, native := ParseMemory(text);
    }

    /**
     * parse_file(filename, encoding = 'UTF-8'): the checks come first and a
     * failing one changes nothing; then the file name is stored and the
     * opened file (whose read results `file` holds) is parsed as an IO.
     */
    method ParseFile(filename: Option<string>, present: bool, directory: bool, file: Io, encoding: string := "UTF-8")
      returns (r: Outcome<Raise>, native: NativeParser?)
      modifies this, file
      ensures FileCheck(filename, present, directory).Some? ==>
        r == Fail(FileCheck(filename, present, directory).value) && native == null &&
        unchanged(this) && unchanged(file)
      ensures FileCheck(filename, present, directory).None? ==>
        this.filename == filename && this.encoding == encoding && document == old(document)
      ensures r.Pass? <==> native != null
      ensures native != null ==> fresh(native) && native.document == document && native.filename == filename
      ensures native != null ==> native.calls == WriteCalls(Drained(old(file.pending))) + [Call.Finish]
    {
      var check := FileCheck(filename, present, directory);
      if check.Some? {
        return Fail(check.value), null;
      }
      this.filename := filename;
      r, native := ParseIo(file, encoding);
    }
  }
}
