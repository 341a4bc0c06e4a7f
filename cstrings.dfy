/**
 * C strings as the SAX callbacks receive them from libxml2, and the three
 * ways the glue turns them into Ruby strings:
 *   NOKOGIRI_STR_NEW2(p)   reads up to the first NUL byte;
 *   NOKOGIRI_STR_NEW(p, n) takes exactly n bytes, NULs included;
 *   RBSTR_OR_QNIL(p)       is nil for a NULL pointer, else NOKOGIRI_STR_NEW2(p).
 * Each `char` of a buffer stands for one xmlChar byte.
 */
module CStrings {
  import opened Values

  /** A pointer into a byte buffer, or NULL. */
  datatype Ptr = Null | At(buf: string, off: nat)

  /** `p` points at a NUL-terminated string: some NUL lies at or after its offset. */
  predicate IsCString(p: Ptr) {
    p.At? && exists k :: p.off <= k < |p.buf| && p.buf[k] == '\0'
  }

  predicate NullOrCString(p: Ptr) {
    p.Null? || IsCString(p)
  }

  /** NOKOGIRI_STR_NEW2: the bytes from `p` up to, not including, the first NUL. */
  function CStr(p: Ptr): (s: string)
    requires IsCString(p)
    ensures p.off + |s| < |p.buf| && p.buf[p.off + |s|] == '\0'
    ensures s == p.buf[p.off..p.off + |s|]
    ensures forall i :: 0 <= i < |s| ==> s[i] != '\0'
    decreases |p.buf| - p.off
  {
    if p.buf[p.off] == '\0' then ""
    else
      var rest := At(p.buf, p.off + 1);
      assert IsCString(rest) by {
        var k :| p.off <= k < |p.buf| && p.buf[k] == '\0';
        assert p.off + 1 <= k;
      }
      [p.buf[p.off]] + CStr(rest)
  }

  /** RBSTR_OR_QNIL: nil for NULL, otherwise the NUL-terminated string. */
  function StrOrNil(p: Ptr): (r: Option<string>)
    requires NullOrCString(p)
    ensures r.None? <==> p.Null?
    ensures r.Some? ==> r.value == CStr(p)
  {
    if p.Null? then None else Some(CStr(p))
  }

  /** `len` bytes starting at `p` lie inside its buffer. */
  predicate SpanFits(p: Ptr, len: int) {
    p.At? && 0 <= len && p.off + len <= |p.buf|
  }

  /** NOKOGIRI_STR_NEW(p, len): exactly `len` bytes from `p`, whatever they are. */
  function Span(p: Ptr, len: int): (s: string)
    requires SpanFits(p, len)
    ensures |s| == len
    ensures forall i :: 0 <= i < len ==> s[i] == p.buf[p.off + i]
  {
    p.buf[p.off..p.off + len]
  }

  /**
   * A span that runs past an embedded NUL keeps the NUL and everything after
   * it, while the NUL-terminated reading of the same pointer stops there: the
   * NUL-terminated string is a proper prefix of the span.
   */
  lemma SpanKeepsWhatCStrCuts(p: Ptr, len: int)
    requires IsCString(p) && SpanFits(p, len)
    requires len > |CStr(p)|
    ensures CStr(p) < Span(p, len)
    ensures Span(p, len)[|CStr(p)|] == '\0'
  {
    var s, t := CStr(p), Span(p, len);
    assert s == t[..|s|];
  }
}
