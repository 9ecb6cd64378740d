/** Types and constants shared by the model of the OpenCTM API (openctm.c).

    The numeric values of the API enumerations come from openctm.h, and the
    format version from internal.h, neither of which is part of this model;
    the values below for them are placeholders,
    pairwise distinct where the code compares them, and no proof depends on
    anything else about them.  The four-character tags are the four ASCII
    bytes packed little-endian, the first character in the low byte. */
module CtmTypes {

  datatype Option<+T> = None | Some(value: T)

  /** CTMuint: an unsigned 32-bit integer. */
  newtype uint32 = x: int | 0 <= x < 0x1_0000_0000

  const TWO_32: int := 0x1_0000_0000

  /** A non-negative result of C unsigned arithmetic, reduced modulo 2^32. */
  function Wrap32(x: nat): uint32
  {
    (x % TWO_32) as uint32
  }

  /** ++ on a CTMuint. */
  function Inc(x: uint32): uint32
  {
    if x < 0xFFFF_FFFF then x + 1 else 0
  }

  /** CTMerror. */
  datatype Error =
    | NoError
    | InvalidContext
    | InvalidArgument
    | InvalidOperation
    | InvalidMesh
    | OutOfMemory
    | FileError
    | FormatError

  /** CTMcontextmode, fixed when the context is created. */
  datatype Mode = Import | Export

  /** The compression method held by a context (mMethod). */
  datatype Method = Raw | Mg1 | Mg2

  // CTMmethod codes as a caller passes them to ctmCompressionMethod.
  const METHOD_RAW: int := 0x0201
  const METHOD_MG1: int := 0x0202
  const METHOD_MG2: int := 0x0203

  /** The method a CTMmethod code names, if it names one. */
  function MethodOfCode(code: int): Option<Method>
  {
    if code == METHOD_RAW then Some(Raw)
    else if code == METHOD_MG1 then Some(Mg1)
    else if code == METHOD_MG2 then Some(Mg2)
    else None
  }

  // CTMproperty selectors.
  const NONE: int := 0x0000
  const VERTEX_COUNT: int := 0x0301
  const TRIANGLE_COUNT: int := 0x0302
  const HAS_NORMALS: int := 0x0303
  const TEX_MAP_COUNT: int := 0x0304
  const ATTRIB_MAP_COUNT: int := 0x0305
  const INDICES: int := 0x0601
  const VERTICES: int := 0x0602
  const NORMALS: int := 0x0603
  const TEX_MAP_1: int := 0x0700
  const ATTRIB_MAP_1: int := 0x0800
  const FILE_COMMENT: int := 0x0901

  // CTMuint booleans as ctmGetInteger returns them.
  const CTM_TRUE: uint32 := 1
  const CTM_FALSE: uint32 := 0

  /** One unit of a bound stream: a word as _ctmStreamReadUINT/_ctmStreamWriteUINT
      move it, or a string as _ctmStreamReadSTRING/_ctmStreamWriteSTRING move it. */
  datatype Token = Word(value: uint32) | Text(chars: string)

  // FOURCC("OCTM"), FOURCC("RAW\0"), FOURCC("MG1\0") and FOURCC("MG2\0"):
  // the ASCII bytes packed little-endian.  Then _CTM_FORMAT_VERSION, whose value
  // is defined in internal.h: the 1 below is a placeholder, and no proof
  // depends on it.
  const FOURCC_OCTM: uint32 := 0x4D54_434F
  const FOURCC_RAW: uint32 := 0x0057_4152
  const FOURCC_MG1: uint32 := 0x0031_474D
  const FOURCC_MG2: uint32 := 0x0032_474D
  const FORMAT_VERSION: uint32 := 1

  /** _CTM_HAS_NORMALS_BIT: bit 0 of the header flags. */
  const HAS_NORMALS_BIT: bv32 := 1

  /** The vertex precision of a new context. */
  const DEFAULT_PRECISION: real := 1.0 / 1024.0

  /** The increment wraps to zero past the largest CTMuint. */
  lemma IncWraps(x: uint32)
    ensures Inc(x) == Wrap32(x as int + 1)
  {
  }
}
