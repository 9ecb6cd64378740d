/** The file header that ctmSaveCustom writes and ctmLoadCustom reads back,
    as pure functions over a token stream. */
module CtmHeader {
  import opened CtmTypes

  /** The header fields after the magic word and the format version. */
  datatype Header = Header(
    compression: Method,
    vertexCount: uint32,
    triangleCount: uint32,
    texMapCount: uint32,
    attribMapCount: uint32,
    flags: uint32,
    comment: Option<string>)

  /** Magic, version, method, five counts and flags, and the comment. */
  const HEADER_TOKENS: nat := 9

  /** The check at which ctmLoadCustom gives up with CTM_FORMAT_ERROR, with what it
      has already stored in the context by then. */
  datatype Stage =
    | BadMagic
    | BadVersion
    | BadMethod
    | NoVertices(compression: Method)
    | NoTriangles(compression: Method, vertexCount: uint32)

  datatype Parse = Parsed(header: Header) | Rejected(stage: Stage)

  /** The method tag written for each method. */
  function MethodTag(m: Method): uint32
  {
    match m
    case Raw => FOURCC_RAW
    case Mg1 => FOURCC_MG1
    case Mg2 => FOURCC_MG2
  }

  /** The method a tag read from a stream selects, if any. */
  function MethodOfTag(t: uint32): (r: Option<Method>)
    ensures r.Some? <==> t == FOURCC_RAW || t == FOURCC_MG1 || t == FOURCC_MG2
    ensures r.Some? ==> MethodTag(r.value) == t
  {
    if t == FOURCC_RAW then Some(Raw)
    else if t == FOURCC_MG1 then Some(Mg1)
    else if t == FOURCC_MG2 then Some(Mg2)
    else None
  }

  lemma MethodTagRoundTrip(m: Method)
    ensures MethodOfTag(MethodTag(m)) == Some(m)
  {
  }

  /** The word a read at position i yields; a short read or a token of the other
      kind yields 0. */
  function WordAt(s: seq<Token>, i: nat): uint32
  {
    if i < |s| && s[i].Word? then s[i].value else 0
  }

  /** The string a read at position i yields; a short read yields the empty string. */
  function TextAt(s: seq<Token>, i: nat): string
  {
    if i < |s| && s[i].Text? then s[i].chars else []
  }

  /** A comment as the context holds it: an empty string leaves no comment. */
  function CommentOf(text: string): (c: Option<string>)
    ensures c != Some([])
    ensures TextOf(c) == text
  {
    if text == [] then None else Some(text)
  }

  /** The text written for a comment; no comment is written as the empty string. */
  function TextOf(c: Option<string>): string
  {
    if c.Some? then c.value else []
  }

  lemma {:induction false} CommentRoundTrip(c: Option<string>)
    requires c != Some([])
    ensures CommentOf(TextOf(c)) == c
  {
    if c.Some? {
      assert TextOf(c) == c.value != [];
    }
  }

  predicate HasNormals(flags: uint32)
  {
    (flags as bv32) & HAS_NORMALS_BIT != 0
  }

  /** The flags ctmSaveCustom computes: 0, with the normals bit or-ed in when
      the mesh has normals. */
  function FlagsFor(hasNormals: bool): (f: uint32)
    ensures HasNormals(f) == hasNormals
  {
    var flags: bv32 := 0;
    var flags := if hasNormals then flags | HAS_NORMALS_BIT else flags;
    flags as int as uint32
  }

  /** The tokens ctmSaveCustom writes before the payload, in order. */
  function EncodeHeader(h: Header): (r: seq<Token>)
    ensures |r| == HEADER_TOKENS && HeaderShaped(r)
  {
    [ Word(FOURCC_OCTM), Word(FORMAT_VERSION), Word(MethodTag(h.compression)),
      Word(h.vertexCount), Word(h.triangleCount),
      Word(h.texMapCount), Word(h.attribMapCount),
      Word(h.flags), Text(TextOf(h.comment)) ]
  }

  /** What ctmLoadCustom makes of the first HEADER_TOKENS tokens of a stream:
      the checks in the order the code makes them. */
  function ParseHeader(s: seq<Token>): (r: Parse)
    ensures r.Parsed? ==> Writable(r.header)
  {
    if WordAt(s, 0) != FOURCC_OCTM then Rejected(BadMagic)
    else if WordAt(s, 1) != FORMAT_VERSION then Rejected(BadVersion)
    else match MethodOfTag(WordAt(s, 2))
      case None => Rejected(BadMethod)
      case Some(m) =>
        if WordAt(s, 3) == 0 then Rejected(NoVertices(m))
        else if WordAt(s, 4) == 0 then Rejected(NoTriangles(m, WordAt(s, 3)))
        else Parsed(Header(m, WordAt(s, 3), WordAt(s, 4), WordAt(s, 5), WordAt(s, 6),
                           WordAt(s, 7), CommentOf(TextAt(s, 8))))
  }

  /** A header that ctmSaveCustom can write: both counts positive, and no empty
      comment (ctmFileComment never stores one). */
  predicate Writable(h: Header)
  {
    h.vertexCount > 0 && h.triangleCount > 0 && h.comment != Some([])
  }

  /** The tokens at the head of a stream have the kinds a header has. */
  predicate HeaderShaped(s: seq<Token>)
  {
    |s| >= HEADER_TOKENS &&
    (forall i :: 0 <= i < HEADER_TOKENS - 1 ==> s[i].Word?) &&
    s[HEADER_TOKENS - 1].Text?
  }

  /** Decoding what was encoded gives back the header, whatever payload follows. */
  lemma {:induction false} ParseEncoded(h: Header, payload: seq<Token>)
    requires Writable(h)
    ensures ParseHeader(EncodeHeader(h) + payload) == Parsed(h)
  {
    var s := EncodeHeader(h) + payload;
    assert s[..HEADER_TOKENS] == EncodeHeader(h);
    MethodTagRoundTrip(h.compression);
    CommentRoundTrip(h.comment);
    assert WordAt(s, 2) == MethodTag(h.compression);
    assert TextAt(s, 8) == TextOf(h.comment);
  }

  /** A stream that begins with the encoding of a header parses as that header,
      whatever follows it. */
  lemma {:induction false} ParsePrefix(h: Header, s: seq<Token>)
    requires Writable(h) && |s| >= HEADER_TOKENS && s[..HEADER_TOKENS] == EncodeHeader(h)
    ensures ParseHeader(s) == Parsed(h)
  {
    assert s == EncodeHeader(h) + s[HEADER_TOKENS..];
    ParseEncoded(h, s[HEADER_TOKENS..]);
  }

  /** Encoding what was decoded gives back the header tokens of the stream. */
  lemma {:induction false} EncodeParsed(s: seq<Token>)
    requires HeaderShaped(s) && ParseHeader(s).Parsed?
    ensures Writable(ParseHeader(s).header)
    ensures EncodeHeader(ParseHeader(s).header) == s[..HEADER_TOKENS]
  {
    var h := ParseHeader(s).header;
    var e := EncodeHeader(h);
    forall i | 0 <= i < HEADER_TOKENS
      ensures e[i] == s[i]
    {
      if i < HEADER_TOKENS - 1 {
        assert s[i].Word?;
      }
    }
  }

  /** Each of the five validity checks, on its own, makes the load fail. */
  lemma {:induction false} ParseRejects(s: seq<Token>)
    ensures WordAt(s, 0) != FOURCC_OCTM ==> ParseHeader(s) == Rejected(BadMagic)
    ensures WordAt(s, 1) != FORMAT_VERSION ==> ParseHeader(s).Rejected?
    ensures MethodOfTag(WordAt(s, 2)).None? ==> ParseHeader(s).Rejected?
    ensures WordAt(s, 3) == 0 ==> ParseHeader(s).Rejected?
    ensures WordAt(s, 4) == 0 ==> ParseHeader(s).Rejected?
    ensures ParseHeader(s).Parsed? ==> Writable(ParseHeader(s).header)
  {
  }
}
