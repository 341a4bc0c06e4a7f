# Nokogiri SAX and push-parser core, modelled in Dafny

This project models the part of Nokogiri that sits between libxml2's SAX
tokenizer and Ruby documents:

- the SAX callbacks of `ext/nokogiri/xml_sax_parser.c`, which turn libxml2's
  raw C arguments into events for the Ruby document and stop the tokenizer
  when the document raises;
- the XML push-parser session of `ext/nokogiri/xml_sax_push_parser.c`, whose
  fields are a libxml2 context, the handler document and a pending handler
  fault;
- the HTML push parser and the HTML native parser
  (`ext/nokogiri/html_sax_push_parser.c`, `ext/nokogiri/html_sax_native_parser.c`);
- the Ruby drivers `Nokogiri::XML::SAX::Parser`, `Nokogiri::HTML::SAX::Parser`
  and `Nokogiri::XML::SAX::ParserContext`.

libxml2 is a collaborator with unconstrained answers. Each entry point the
glue calls (`xmlParseChunk`, `htmlParseChunk`, `xmlCreatePushParserCtxt`,
`xmlCtxtUseOptions`, `xmlSwitchToEncoding`, `xmlParseCharEncoding`) is a method
of `Libxml`. Its contract promises only what the glue relies on: which fields
it leaves alone, and that the context records every chunk fed to it. Its frame
includes every field libxml2 may set. For example, `xmlCtxtUseOptions` may
change `replaceEntities` as well as `options`, and `xmlSwitchToEncoding` may
set the last error.

The return code is free, but it is recorded. Each call on a context appends
its code to the ghost log `answers`. Encoding-name lookups go through
`Libxml.Charsets`, which logs its answers in the same way. Where a result
depends on such an answer, the answer is a ghost out-parameter, and the
contract says it is the entry the call added to the log. For example,
`XmlPushParser.PushParser.Write2` returns
`r == ChunkOutcome(fault, ret, options, lastError)`. Here `ret` is the code
the tokenizer added to `ctx.answers`. `fault` is the pending fault it left,
which the session logs in `seen`.

Files and modules:

| file | module | models |
|---|---|---|
| values.dfy | `Values` | Option/Result/Outcome, the Ruby values the glue inspects, the exceptions it raises |
| cstrings.dfy | `CStrings` | C pointers into byte buffers, NUL-terminated strings, counted byte spans |
| libxml.dfy | `Libxml` | the libxml2 parser context (`class Ctxt`) and the libxml2 entry points |
| sax_callbacks.dfy | `SaxCallbacks` | `xml_sax_parser.c` |
| xml_push_parser.dfy | `XmlPushParser` | `xml_sax_push_parser.c` |
| html_push_parser.dfy | `HtmlPushParser` | `html_sax_push_parser.c` |
| html_native_parser.dfy | `HtmlNativeParser` | `html_sax_native_parser.c` |
| sax_parser.dfy | `SaxParser` | `lib/nokogiri/xml/sax/parser.rb` |
| html_sax_parser.dfy | `HtmlSaxParser` | `lib/nokogiri/html/sax/parser.rb` |
| parser_context.dfy | `ParserContext` | `lib/nokogiri/xml/sax/parser_context.rb` |

The push-parser session keeps `Valid()` (no handler fault pending between
calls, and the live context has not been freed) across every operation. The
contexts that `initialize` frees are tracked in the ghost set `released`. The
contexts the HTML initializers drop without freeing are tracked in `abandoned`.

There is no finished state: the only guard is the null-context check, so
after `finish` a session still accepts chunks and hands them to libxml2.

## Model

| member | source | states |
|---|---|---|
| CStrings.CStr | ext/nokogiri/xml_sax_parser.c:279 | a NUL-terminated read returns the bytes from the pointer up to the first NUL, contains no NUL, and the NUL follows it |
| CStrings.StrOrNil | ext/nokogiri/xml_sax_parser.c:139-161 | a NULL pointer reads as nil and any other pointer as its C string |
| CStrings.Span | ext/nokogiri/xml_sax_parser.c:260 | a counted read returns exactly `len` bytes, each equal to the buffer byte at the same offset |
| CStrings.SpanKeepsWhatCStrCuts | ext/nokogiri/xml_sax_parser.c:254-283 | over the same bytes, the NUL-terminated read is a strict prefix of the counted read, and the counted read keeps the NUL where the other stops |
| Libxml.Ctxt.ParseChunk | ext/nokogiri/xml_sax_push_parser.c:76 | feeding a chunk appends it, with its terminate flag, to the context's record and the return code to its answers; the handler binding and the SAX2 flag do not change; the return code is free |
| Libxml.Ctxt.UseOptions | ext/nokogiri/xml_sax_push_parser.c:131 | applying an option word may change the options and the entity-replacement flag; its code is logged in the context's answers |
| Libxml.Ctxt.SwitchToEncoding | ext/nokogiri/xml_sax_push_parser.c:237-238 | switching the encoding may change the current input and the last error; its code is logged in the context's answers |
| Libxml.Charsets.ParseCharEncoding | ext/nokogiri/html_sax_push_parser.c:16-17 | a name lookup gives an id or XML_CHAR_ENCODING_ERROR, and the id is logged |
| Libxml.Ctxt.Stop | ext/nokogiri/xml_sax_parser.c:57-61 | once xmlStopParser is called, the context is stopped |
| Libxml.CreatePushParserCtxt | ext/nokogiri/xml_sax_push_parser.c:51-54 | context creation gives null or a fresh context that has seen no chunk, is not stopped and carries the handler, file name, encoding and HTML flag it was created with |
| SaxCallbacks.StandaloneName | ext/nokogiri/xml_sax_parser.c:41-51 | the standalone flag maps 1 to "yes" and 0 to "no"; every other value gives nil, in both directions |
| SaxCallbacks.Declaration | ext/nokogiri/xml_sax_parser.c:31-56 | an xmldecl event exists iff the context is not HTML and standalone is not -1; it carries the recorded version and encoding (nil when absent) and the mapped standalone flag |
| SaxCallbacks.HtmlHasNoDeclaration | ext/nokogiri/xml_sax_parser.c:31 | an HTML context never yields xmldecl, whatever it recorded |
| SaxCallbacks.Protect | ext/nokogiri/xml_sax_parser.c:57-66 | after a protected handler call, the tokenizer is stopped iff it was already stopped or the handler raised; the exception does not leave the callback |
| SaxCallbacks.OnStartDocument | ext/nokogiri/xml_sax_parser.c:24-67 | xmldecl is sent first exactly when `Declaration` says so; if it raises, the parser is stopped and start_document is not sent; otherwise start_document follows and its failure stops the parser |
| SaxCallbacks.OnEndDocument | ext/nokogiri/xml_sax_parser.c:75-82 | sends end_document and stops the parser iff the handler raised |
| SaxCallbacks.FlatAttributes | ext/nokogiri/xml_sax_parser.c:95-106 | the flat array becomes [name, value] pairs in input order, read up to the first NULL name (its index is twice the pair count); a NULL value gives nil; a NULL array gives no pairs |
| SaxCallbacks.OnStartElement | ext/nokogiri/xml_sax_parser.c:91-114 | start_element gets the element name and the pairs `FlatAttributes` describes; a handler failure stops the parser |
| SaxCallbacks.OnEndElement | ext/nokogiri/xml_sax_parser.c:123-133 | end_element gets the element name; a handler failure stops the parser |
| SaxCallbacks.TupleAttribute | ext/nokogiri/xml_sax_parser.c:147-158 | one 5-tuple gives an Attribute whose localname, prefix and uri are nil for NULL, and whose value is the byte range [start, end) of length end - start |
| SaxCallbacks.AttributesAsList | ext/nokogiri/xml_sax_parser.c:135-162 | exactly `nb_attributes` attributes in order, the j-th read from the j-th 5-tuple; a NULL array or a zero count gives none |
| SaxCallbacks.NamespacesAsList | ext/nokogiri/xml_sax_parser.c:191-204 | exactly `nb_namespaces` (prefix, uri) pairs in order, each part nil for NULL; a NULL array or a zero count gives none |
| SaxCallbacks.OnStartElementNs | ext/nokogiri/xml_sax_parser.c:172-215 | start_element_namespace gets the local name, exactly the attributes and namespaces the two readers describe, and the prefix and URI (nil for NULL); a handler failure stops the parser |
| SaxCallbacks.OnEndElementNs | ext/nokogiri/xml_sax_parser.c:228-245 | end_element_namespace gets the local name, the prefix and the URI (nil for NULL); a handler failure stops the parser |
| SaxCallbacks.OnCharacters | ext/nokogiri/xml_sax_parser.c:254-264 | characters gets exactly `len` bytes from the start pointer; a handler failure stops the parser |
| SaxCallbacks.OnCdataBlock | ext/nokogiri/xml_sax_parser.c:346-356 | cdata_block gets exactly `len` bytes from the start pointer; a handler failure stops the parser |
| SaxCallbacks.OnComment | ext/nokogiri/xml_sax_parser.c:273-283 | comment gets the NUL-terminated text, which therefore holds no NUL; a handler failure stops the parser |
| SaxCallbacks.OnWarning | ext/nokogiri/xml_sax_parser.c:292-310 | warning gets the formatted message as a C string; a handler failure stops the parser |
| SaxCallbacks.OnError | ext/nokogiri/xml_sax_parser.c:319-337 | error gets the formatted message as a C string; a handler failure stops the parser |
| XmlPushParser.RecoverOutcome | ext/nokogiri/xml_sax_push_parser.c:84-87 | the tokenizer's last error is raised iff the chunk call returned non-zero and the RECOVER bit of the option word is clear |
| XmlPushParser.ChunkOutcome | ext/nokogiri/xml_sax_push_parser.c:78-87 | a pending handler fault is re-raised ahead of anything else; without one, the grammar-error policy decides |
| XmlPushParser.FaultWinsOverGrammarError | ext/nokogiri/xml_sax_push_parser.c:78-87 | when both a fault and a grammar error arise from one chunk, only the fault is raised |
| XmlPushParser.ChunkText | ext/nokogiri/xml_sax_push_parser.c:107-110 | a nil chunk is fed as zero bytes, and any other chunk as itself |
| XmlPushParser.IsLast | ext/nokogiri/xml_sax_push_parser.c:112 | the last-chunk flag is set iff the second argument is not nil |
| XmlPushParser.PushParser.constructor | ext/nokogiri/xml_sax_push_parser.c:23-34 | a new session has no context, a nil handler and no pending fault |
| XmlPushParser.PushParser.Initialize | ext/nokogiri/xml_sax_push_parser.c:36-64 | creation failure raises "Could not create a parser context" and leaves the context and handler as they were; otherwise the old context is freed, and the fresh SAX2 context and the document are bound |
| XmlPushParser.PushParser.Tokenize | ext/nokogiri/xml_sax_push_parser.c:76 | the chunk reaches the session's context; its return code is logged in the context's answers, and the fault it leaves pending is logged in `seen` |
| XmlPushParser.PushParser.Write2 | ext/nokogiri/xml_sax_push_parser.c:66-90 | an uninitialized session raises "Parser is Uninitialized."; otherwise the chunk is fed and the pending fault is cleared. The outcome is `ChunkOutcome` of the options, the last error, the fault the tokenizer left (logged in `seen`) and its return code (logged in the context's answers) |
| XmlPushParser.PushParser.Write | ext/nokogiri/xml_sax_push_parser.c:98-113 | write2 of the chunk (zero bytes for nil), final iff the second argument is non-nil, with the same logged code and fault deciding the outcome |
| XmlPushParser.PushParser.Finish | ext/nokogiri/xml_sax_push_parser.c:244-248 | write2 of an empty final chunk, with the same logged code and fault deciding the outcome |
| XmlPushParser.PushParser.Options | ext/nokogiri/xml_sax_push_parser.c:115-122 | the context's option word, verbatim; "Parser is Uninitialized." without a context |
| XmlPushParser.PushParser.SetOptions | ext/nokogiri/xml_sax_push_parser.c:124-135 | uninitialized raises; an Integer outside the C int range raises RangeError; the code xmlCtxtUseOptions logs is non-zero iff "Cannot set XML parser context options" is raised; a RangeError leaves the context untouched; fed chunks, position, stop flag, handler and last error never change |
| XmlPushParser.PushParser.SetReplaceEntities | ext/nokogiri/xml_sax_push_parser.c:144-157 | uninitialized raises; otherwise the flag becomes 0 iff the value is false and 1 for anything else, and the value is returned; fed chunks, options, position, stop flag, handler, last error and logged codes stay as they were |
| XmlPushParser.PushParser.ReplaceEntities | ext/nokogiri/xml_sax_push_parser.c:166-177 | uninitialized raises; otherwise false iff the flag is 0 |
| XmlPushParser.PushParser.Line | ext/nokogiri/xml_sax_push_parser.c:184-197 | uninitialized raises; nil without a current input; otherwise the input's line |
| XmlPushParser.PushParser.Column | ext/nokogiri/xml_sax_push_parser.c:204-217 | uninitialized raises; nil without a current input; otherwise the input's column |
| XmlPushParser.PushParser.Document | ext/nokogiri/xml_sax_push_parser.c:219-225 | the bound handler, with no initialization check |
| XmlPushParser.PushParser.ForceEncoding | ext/nokogiri/xml_sax_push_parser.c:227-242 | uninitialized raises; "Unsupported encoding" is raised iff the code xmlSwitchToEncoding logs is non-zero; fed chunks, options, entity replacement, stop flag and handler do not change |
| XmlPushParser.ReplaceEntitiesRoundTrip | ext/nokogiri/xml_sax_push_parser.c:144-177 | reading replace_entities after setting it to v gives `v != false`, so nil reads back as true |
| XmlPushParser.UninitializedSession | ext/nokogiri/xml_sax_push_parser.c:23-74 | on a session that was allocated but never initialized, write of any chunk, finish, options and line each raise "Parser is Uninitialized.", while document answers nil |
| HtmlPushParser.HtmlPushParser.Initialize | ext/nokogiri/html_sax_push_parser.c:3-33 | an absent encoding is NONE; ArgumentError "Unsupported encoding" is raised iff an encoding is given and the id the lookup logs in `Charsets` is XML_CHAR_ENCODING_ERROR, before any context exists; any failure leaves the context pointer as it was; creation failure raises "Could not create a parser context"; otherwise the document is bound through the new HTML SAX2 context, which replaces the old one without freeing it |
| HtmlPushParser.HtmlPushParser.Write2 | ext/nokogiri/html_sax_push_parser.c:35-49 | the chunk is fed and the outcome is `RecoverOutcome`: the last error is raised iff the code htmlParseChunk logged is non-zero and RECOVER is clear; no fault check |
| HtmlPushParser.HtmlPushParser.Write | ext/nokogiri/html_sax_push_parser.c:57-72 | a nil chunk is zero bytes, and any non-nil second argument makes the chunk final; the logged code decides the outcome as in write2 |
| HtmlPushParser.HtmlPushParser.Finish | ext/nokogiri/html_sax_push_parser.c:74-78 | an empty final chunk under the same policy, decided by the logged code |
| HtmlPushParser.HtmlPolicyIsXmlPolicyWithoutFault | ext/nokogiri/html_sax_push_parser.c:41-46 | the HTML policy equals the XML session's policy with no fault pending |
| HtmlNativeParser.HtmlNativeParser.Initialize | ext/nokogiri/html_sax_native_parser.c:3-31 | a given encoding is used as a raw id; only an Integer outside the C int range raises, with RangeError, and nothing else does; creation failure raises RuntimeError; otherwise a fresh HTML SAX2 context for the document replaces the old one without freeing it |
| HtmlNativeParser.HtmlNativeParser.Write2 | ext/nokogiri/html_sax_native_parser.c:33-42 | the chunk is fed; the last error is raised iff the code htmlParseChunk logged is non-zero and RECOVER is clear |
| HtmlNativeParser.HtmlNativeParser.Write | ext/nokogiri/html_sax_native_parser.c:50-70 | a nil chunk is zero bytes, final iff the second argument is non-nil; the logged code decides the outcome as in write2; returns self unless it raised |
| HtmlNativeParser.HtmlNativeParser.Finish | ext/nokogiri/html_sax_native_parser.c:72-79 | feeds an empty final chunk, with the logged code deciding the outcome as in write2, and returns self unless it raised |
| SaxParser.EncodingTable | lib/nokogiri/xml/sax/parser.rb:34-58 | ENCODINGS has 23 names and is a bijection onto the ids 0..22: every id is in range, every id is used, and no two names share one |
| SaxParser.EncodingId | lib/nokogiri/html/sax/parser.rb:55 | looking a name up in ENCODINGS gives its id iff the table holds it, otherwise nil; every id found fits a C int |
| SaxParser.Io.Read | lib/nokogiri/xml/sax/parser.rb:115 | each read returns the next pending result, and nil once they are used up |
| SaxParser.Drained | lib/nokogiri/xml/sax/parser.rb:115-117 | the chunks written for a sequence of reads: the reads up to the first nil or empty one, in order, each non-empty |
| SaxParser.DrainedAppend | lib/nokogiri/xml/sax/parser.rb:115-117 | reads that all return data are written in full, followed by whatever the remaining reads give |
| SaxParser.FeedIo | lib/nokogiri/xml/sax/parser.rb:114-119 | the parser receives one non-final write per drained chunk, then exactly one finish, whatever StandardError those calls raise; the IO is consumed up to and including the terminating read |
| SaxParser.FileCheck | lib/nokogiri/xml/sax/parser.rb:96-98 | the file checks in order: a nil name raises ArgumentError, a missing file ENOENT, a directory EISDIR; the parse goes on iff all pass |
| SaxParser.SaxParser.constructor | lib/nokogiri/xml/sax/parser.rb:67-71 | stores the document and the encoding (default 'UTF-8'); there is no file name yet |
| SaxParser.SaxParser.Parse | lib/nokogiri/xml/sax/parser.rb:76-82 | an IO goes to parse_io with encoding 'ASCII', and anything else to parse_memory with 'UTF-8': nil raises ArgumentError, "" raises "data cannot be empty", and other data is one final write |
| SaxParser.SaxParser.ParseIo | lib/nokogiri/xml/sax/parser.rb:86-91 | stores the encoding (default 'ASCII'), builds a native parser for the document and the current file name, and drains the IO into it as `FeedIo` describes |
| SaxParser.SaxParser.ParseFile | lib/nokogiri/xml/sax/parser.rb:95-101 | a failing check raises and changes nothing; otherwise the file name is stored before the file is parsed as an IO with the given encoding (default 'UTF-8') |
| SaxParser.SaxParser.ParseMemory | lib/nokogiri/xml/sax/parser.rb:103-110 | the encoding is stored first; nil raises ArgumentError and "" raises "data cannot be empty"; otherwise a native parser without a file name gets the whole data as one final write, and a StandardError it raises is swallowed |
| HtmlSaxParser.FeedHtmlIo | lib/nokogiri/xml/sax/parser.rb:114-119 | over the HTML native parser, the context is fed one non-final chunk per drained read, then one empty final chunk, whatever StandardError those calls raise; the handler binding is kept |
| HtmlSaxParser.HtmlSaxParser.constructor | lib/nokogiri/html/sax/parser.rb:30-32 | the XML driver's constructor: document, encoding (default 'UTF-8'), no file name |
| HtmlSaxParser.HtmlSaxParser.GetParser | lib/nokogiri/html/sax/parser.rb:54-58 | the native parser is built for the document, the file name and the id ENCODINGS gives the encoding (nil when unknown), and then forced to the same id. When no parser gets built, the failure is "Could not create a parser context", never RangeError; otherwise the outcome is what force_encoding logged, and the parser is handed back iff that passed |
| HtmlSaxParser.HtmlSaxParser.ParseMemory | lib/nokogiri/html/sax/parser.rb:43-50 | nil and "" are rejected before the encoding is stored, so a rejected call changes nothing; otherwise the context is fed the data as one final chunk, and a StandardError it raises is swallowed |
| HtmlSaxParser.HtmlSaxParser.ParseIo | lib/nokogiri/html/sax/parser.rb:36-41 | stores the encoding (default 'ASCII') before building the parser, then feeds the drained reads and one empty final chunk |
| HtmlSaxParser.HtmlSaxParser.Parse | lib/nokogiri/xml/sax/parser.rb:76-82 | the inherited dispatch, now reaching the HTML parse_io and parse_memory: nil raises ArgumentError and "" raises "data cannot be empty" with the encoding left alone; other data is one final chunk with 'UTF-8' |
| HtmlSaxParser.HtmlSaxParser.ParseFile | lib/nokogiri/xml/sax/parser.rb:95-101 | the inherited file checks, then the HTML parse_io with the file name stored |
| ParserContext.ParserContext.constructor | lib/nokogiri/xml/sax/parser_context.rb:11-16 | a new context holds the input and encoding, with no parser and a nil replace_entities |
| ParserContext.ParserContext.Memory | lib/nokogiri/xml/sax/parser_context.rb:18-23 | nil raises ArgumentError and "" raises "data cannot be empty"; any other string gives a new context over that data |
| ParserContext.ParserContext.File | lib/nokogiri/xml/sax/parser_context.rb:25-27 | a new context over the opened file, with encoding default nil |
| ParserContext.ParserContext.FromIo | lib/nokogiri/xml/sax/parser_context.rb:29-31 | a new context over the IO with the given encoding |
| ParserContext.ParserContext.ParseWith | lib/nokogiri/xml/sax/parser_context.rb:33-39 | a nil parser raises ArgumentError and changes nothing; otherwise the parser is stored, gets replace_entities only when that is truthy (nil and false leave its own setting alone), and parses the input once, under that setting; the call passes iff parse passed, and otherwise raises what parse raised |
| ParserContext.ParserContext.Line | lib/nokogiri/xml/sax/parser_context.rb:41-43 | 0 until a parser has been set, then the parser's line |
| ParserContext.ParserContext.Column | lib/nokogiri/xml/sax/parser_context.rb:45-47 | 0 until a parser has been set, then the parser's column |

## Left out

- libxml2 itself: the tokenizer, encoding detection, option validation and error records are not modelled. Their answers are unconstrained, and the model proves what holds for every answer.
- The native parser behind `Nokogiri::XML::SAX::Parser`: its C code is not part of this model. `SaxParser.NativeParser` records the calls it receives, and each call may raise. The same goes for the parser object `parse_with` receives (`ParserContext.ContextParser`).
- HtmlNativeParser.HtmlNativeParser.ForceEncoding: inherited from `Nokogiri::XML::SAX::NativeParser`, whose C code is not part of this model. The call and its outcome are recorded, the outcome is free, and its return value is taken to be the parser itself, which is what `get_parser` hands back.
- The Ruby VM machinery: `rb_protect`/`rb_jump_tag`, GC marking and freeing, struct allocation, class registration and symbol interning. A handler that raises is the boolean parameter `raised` of each callback. Freed and leaked contexts are ghost sets.
- Handler plumbing between the variants: the callbacks read the document from `sax->_private`, while the XML session passes its own data pointer as user data; the callbacks keep their status in a local, so nothing in the shown code sets the session's pending fault. The model keeps the document and the pending fault as session fields and lets the tokenizer call leave any fault pending.
- SaxParser.FeedIo: Ruby's `rescue nil` rescues only StandardError. An exception of another class, or a `throw` re-raised through `rb_jump_tag`, would leave `_parse_io`, end the loop and skip `finish`. The model treats every raise from the native parser as a StandardError, so it always swallows it.
- HtmlSaxParser.FeedHtmlIo: the same `rescue nil` limit. Every raise from the HTML native parser is treated as a StandardError and swallowed. The same goes for the failure of the single write in both `parse_memory` drivers.
- The message formatting of `warning_func` and `error_func` (a varargs formatter): the message is an opaque C string.
- The `(int)RSTRING_LEN` truncation of chunks longer than 2^31 - 1 bytes: chunk lengths are unbounded.
- HtmlPushParser.HtmlPushParser.Write2: requires an initialized parser, because the HTML parsers have no null-context guard and the code assumes `initialize` ran. The same applies to `Write` and `Finish` of both HTML parsers.
- HtmlPushParser.HtmlPushParser.Initialize: takes libxml2's process-wide encoding table as an extra argument `charsets`, so that the id its lookup returns is on record. Ruby callers pass no such argument.
- HtmlNativeParser.HtmlNativeParser.Initialize: with no encoding, the C code passes an uninitialised id; the model records "no determinate id" (None) instead of an arbitrary value.
- Negative attribute and namespace counts: `rb_ary_new2` would raise ArgumentError on one, outside the protected handler call. libxml2 never passes one, so `AttributeArray` and `NamespaceArray` require counts of zero or more.
- The `start_document` dereference of the context before its NULL check: libxml2 never passes a NULL context, so the model assumes a context.
- Blocks: the `yield parser if block_given?` hooks of the drivers are not modelled.
- The file system: `File.exists?` and `File.directory?` are boolean parameters, and the opened file is an `Io` whose reads are given. Failures of `File.open` itself are not modelled.
- Ruby duck typing in `parse`: the input is either a string (or nil) or an object that responds to `read` and `close`; objects that respond to only one of them are not modelled.
- `lib/nokogiri/html/sax/parser_context.rb` is not part of this model: it calls `parse_with2`, which no shown file defines.
