/**
 * Nokogiri::XML::SAX::ParserContext (lib/nokogiri/xml/sax/parser_context.rb):
 * holds the input and an encoding until a parser is handed to it, then
 * passes its entity-replacement setting on and asks the parser to parse the
 * input. Position queries go to that parser once there is one.
 */
module ParserContext {
  import opened Values
  import opened SaxParser

  /**
   * The parser `parse_with` is given. Its own code is not part of this
   * model: it keeps a replace_entities setting and a position, records each
   * parse with the setting in force at the time and the outcome it gave, and
   * may raise from parse. A parse may move the position.
   */
  class ContextParser {
    var replaceEntities: Value
    var line: Value
    var column: Value
    var parsed: seq<(Thing, Value)>
    ghost var outcomes: seq<Outcome<Raise>>   // what each parse gave, in order

    constructor (replaceEntities: Value, line: Value, column: Value)
      ensures this.replaceEntities == replaceEntities && this.line == line && this.column == column
      ensures parsed == [] && outcomes == []
    {
      this.replaceEntities := replaceEntities;
      this.line := line;
      this.column := column;
      parsed := [];
      outcomes := [];
    }

    /** replace_entities = value. */
    method SetReplaceEntities(value: Value)
      modifies this`replaceEntities
      ensures replaceEntities == value
    {
      replaceEntities := value;
    }

    /**
     * parse(thing): recorded with the current setting, and its outcome is
     * logged; the outcome and the new position are not constrained.
     */
    method Parse(thing: Thing) returns (r: Outcome<Raise>)
      modifies this`parsed, this`outcomes, this`line, this`column
      ensures parsed == old(parsed) + [(thing, replaceEntities)]
      ensures outcomes == old(outcomes) + [r]
    {
      parsed := parsed + [(thing, replaceEntities)];
      r := Pass;
      outcomes := outcomes + [r];
    }
  }

  class ParserContext {
    const thing: Thing
    const encoding: Option<string>
    var parser: ContextParser?
    var replaceEntities: Value

    /** new(thing, encoding = 'UTF-8'): no parser yet and a nil replace_entities. */
    constructor (thing: Thing, encoding: Option<string> := Some("UTF-8"))
      ensures this.thing == thing && this.encoding == encoding
      ensures parser == null && replaceEntities == Nil
    {
      this.thing := thing;
      this.encoding := encoding;
      parser := null;
      replaceEntities := Nil;
    }

    /**
     * ParserContext.memory(data, encoding = 'UTF-8'): nil raises
     * ArgumentError and "" raises "data cannot be empty"; any other string
     * becomes a new context over that data.
     */
    static method Memory(data: Option<string>, encoding: Option<string> := Some("UTF-8"))
      returns (r: Result<ParserContext, Raise>)
      ensures data.None? ==> r == Failure(ArgumentError(BareArgumentError))
      ensures data == Some("") ==> r == Failure(RuntimeError(EmptyData))
      ensures data.Some? && data.value != "" ==> r.Success?
      ensures r.Success? ==> fresh(r.value) && r.value.thing == Data(data) && r.value.encoding == encoding
      ensures r.Success? ==> r.value.parser == null && r.value.replaceEntities == Nil
    {
      if data.None? {
        return Failure(ArgumentError(BareArgumentError));
      }
      if data.value == "" {
        return Failure(RuntimeError(EmptyData));
      }
      var c := new ParserContext(Data(data), encoding);
      r := Success(c);
    }

    /** ParserContext.file(path, encoding = nil): a context over the opened file, whose reads `file` holds. */
    static method File(file: Io, encoding: Option<string> := None) returns (c: ParserContext)
      ensures fresh(c) && c.thing == Stream(file) && c.encoding == encoding
      ensures c.parser == null && c.replaceEntities == Nil
    {
      c := new ParserContext(Stream(file), encoding);
    }

    /** ParserContext.io(io, encoding): a context over the IO. */
    static method FromIo(io: Io, encoding: Option<string>) returns (c: ParserContext)
      ensures fresh(c) && c.thing == Stream(io) && c.encoding == encoding
      ensures c.parser == null && c.replaceEntities == Nil
    {
      c := new ParserContext(Stream(io), encoding);
    }

    /**
     * parse_with(parser): a nil parser raises ArgumentError and changes
     * nothing. Otherwise the parser is stored, receives replace_entities
     * only when that is truthy (so nil and false leave its own setting
     * alone), and parses the input exactly once; the call returns nil
     * unless parse raised, and then raises what parse raised.
     */
    method ParseWith(p: ContextParser?) returns (r: Outcome<Raise>)
      modifies this, p
      ensures p == null ==> r == Fail(ArgumentError(BareArgumentError)) && unchanged(this)
      ensures p != null ==> parser == p && replaceEntities == old(replaceEntities)
      ensures p != null && old(replaceEntities).Truthy() ==> p.replaceEntities == old(replaceEntities)
      ensures p != null && !old(replaceEntities).Truthy() ==> p.replaceEntities == old(p.replaceEntities)
      ensures p != null ==> p.parsed == old(p.parsed) + [(thing, p.replaceEntities)]
      ensures p != null ==> p.outcomes == old(p.outcomes) + [r]
    {
      if p == null {
        return Fail(ArgumentError(BareArgumentError));
      }
      parser := p;
      if replaceEntities.Truthy() {
        p.SetReplaceEntities(replaceEntities);
      }
      r := p.Parse(thing);
    }

    /** line: 0 until a parser has been set, then the parser's line. */
    method Line() returns (v: Value)
      ensures parser == null ==> v == Int(0)
      ensures parser != null ==> v == parser.line
    {
      if parser == null {
        v := Int(0);
      } else {
        v := parser.line;
      }
    }

    /** column: 0 until a parser has been set, then the parser's column. */
    method Column() returns (v: Value)
      ensures parser == null ==> v == Int(0)
      ensures parser != null ==> v == parser.column
    {
      if parser == null {
        v := Int(0);
      } else {
        v := parser.column;
      }
    }
  }
}
