/** The OpenCTM API session object (_CTMcontext) and the API functions of
    openctm.c that act on it. */
module OpenCtm {
  import opened CtmTypes
  import opened CtmHeader
  import opened CtmMaps
  import opened CtmPrecision

  /** What each malloc of ctmLoadCustom returns: true for memory, false for null. */
  datatype Allocation = Allocation(vertices: bool, indices: bool, normals: bool)

  /** A call the dispatcher makes into a compression backend. */
  datatype Backend = Uncompress(compression: Method) | Compress(compression: Method)

  /** Every field of a context except its fixed mode. */
  datatype State = State(
    error: Error,
    compression: Method,
    precision: real,
    comment: Option<string>,
    vertices: array?<real>,
    vertexCount: uint32,
    indices: array?<uint32>,
    triangleCount: uint32,
    normals: array?<real>,
    texMaps: seq<FloatMap>,
    texMapCount: uint32,
    attribMaps: seq<FloatMap>,
    attribMapCount: uint32,
    input: seq<Token>,
    cursor: nat,
    output: seq<Token>)

  /** A context as ctmNewContext leaves it: everything zero or null, method MG1,
      precision 1/1024. */
  function InitialState(): State
  {
    State(NoError, Mg1, DEFAULT_PRECISION, None, null, 0, null, 0, null, [], 0, [], 0, [], 0, [])
  }

  /** A context after _ctmClearMesh: no arrays, every count zero, both lists empty. */
  function Cleared(s: State): State
  {
    s.(vertices := null, vertexCount := 0, indices := null, triangleCount := 0, normals := null,
       texMaps := [], texMapCount := 0, attribMaps := [], attribMapCount := 0)
  }

  /** The fields of a context that the header reads of ctmLoadCustom store: the
      read position, the error, the method, the four counts and the comment. */
  datatype HeaderFields = HeaderFields(
    cursor: nat,
    error: Error,
    compression: Method,
    vertexCount: uint32,
    triangleCount: uint32,
    texMapCount: uint32,
    attribMapCount: uint32,
    comment: Option<string>)

  /** Those fields after the header reads of ctmLoadCustom on a stream.  When
      every check passes each header field is stored and the stream is read up
      to the payload; when a check fails the error is CTM_FORMAT_ERROR, the
      reads stop after the failing word, and the fields stored before that
      check stay in place. */
  function HeaderReads(stream: seq<Token>, f: HeaderFields): (r: HeaderFields)
    ensures r.cursor < HEADER_TOKENS <==> ParseHeader(stream).Rejected?
    ensures r.error == (if ParseHeader(stream).Rejected? then FormatError else f.error)
    ensures r.compression == f.compression || Some(r.compression) == MethodOfTag(WordAt(stream, 2))
    ensures r.comment == f.comment || r.comment == CommentOf(TextAt(stream, HEADER_TOKENS - 1))
  {
    match ParseHeader(stream)
    case Parsed(h) =>
      f.(cursor := HEADER_TOKENS, compression := h.compression,
         vertexCount := h.vertexCount, triangleCount := h.triangleCount,
         texMapCount := h.texMapCount, attribMapCount := h.attribMapCount, comment := h.comment)
    case Rejected(stage) =>
      var e := f.(error := FormatError);
      match stage
      case BadMagic => e.(cursor := 1)
      case BadVersion => e.(cursor := 2)
      case BadMethod => e.(cursor := 3)
      case NoVertices(m) => e.(cursor := 4, compression := m, vertexCount := 0)
      case NoTriangles(m, vc) => e.(cursor := 5, compression := m, vertexCount := vc, triangleCount := 0)
  }

  /** A context after ctmLoadCustom has bound the stream, cleared the mesh and
      read the header. */
  function AfterHeader(s: State, stream: seq<Token>): State
  {
    var f := HeaderReads(stream, HeaderFields(0, s.error, s.compression, 0, 0, 0, 0, s.comment));
    Cleared(s).(input := stream, cursor := f.cursor, error := f.error, compression := f.compression,
                vertexCount := f.vertexCount, triangleCount := f.triangleCount,
                texMapCount := f.texMapCount, attribMapCount := f.attribMapCount, comment := f.comment)
  }

  /** The three mallocs of ctmLoadCustom succeed, the normal array being needed
      only when the flags say so. */
  predicate Allocates(flags: uint32, alloc: Allocation)
  {
    alloc.vertices && alloc.indices && (HasNormals(flags) ==> alloc.normals)
  }

  /** A context after the allocations of ctmLoadCustom.  When they all succeed it
      holds the new arrays vs, ix and ns, and the decoder has left the read
      position at cur and the error at err. */
  function Allocated(s: State, flags: uint32, alloc: Allocation, vs: array?<real>, ix: array?<uint32>,
                     ns: array?<real>, cur: nat, err: Error): State
  {
    if !alloc.vertices then s.(error := OutOfMemory)
    else if !Allocates(flags, alloc) then Cleared(s).(error := OutOfMemory)
    else s.(vertices := vs, indices := ix, normals := ns, cursor := cur, error := err)
  }

  /** A context after ctmLoadCustom on the stream: refused in Export mode;
      otherwise the mesh is cleared, the header read, and on success the mesh
      arrays allocated and decoded. */
  function Loaded(s: State, mode: Mode, stream: seq<Token>, alloc: Allocation, vs: array?<real>,
                  ix: array?<uint32>, ns: array?<real>, cur: nat, err: Error): (r: State)
    ensures (r.precision, r.output) == (s.precision, s.output)
    ensures mode == Import ==> r.input == stream && (r.texMaps, r.attribMaps) == ([], [])
    ensures Decodes(mode, stream, alloc) ==> (r.vertices, r.indices, r.normals, r.error) == (vs, ix, ns, err)
    ensures mode == Import && !Decodes(mode, stream, alloc) ==>
              r.error in {FormatError, OutOfMemory} && (r.vertices, r.indices, r.normals) == (null, null, null)
  {
    if mode == Export then s.(error := InvalidOperation)
    else
      var t := AfterHeader(s, stream);
      match ParseHeader(stream)
      case Rejected(_) => t
      case Parsed(h) => Allocated(t, h.flags, alloc, vs, ix, ns, cur, err)
  }

  /** ctmLoadCustom reaches the decoder. */
  predicate Decodes(mode: Mode, stream: seq<Token>, alloc: Allocation)
  {
    mode == Import && ParseHeader(stream).Parsed? && Allocates(ParseHeader(stream).header.flags, alloc)
  }

  /** The backend call ctmLoadCustom makes, if any. */
  function LoadBackends(mode: Mode, stream: seq<Token>, alloc: Allocation): seq<Backend>
  {
    if Decodes(mode, stream, alloc) then [Uncompress(ParseHeader(stream).header.compression)] else []
  }

  /** A stream whose header is rejected leaves an Import context with
      CTM_FORMAT_ERROR, no mesh arrays and no maps, and the read position on
      the word after the failing one. */
  lemma LoadRejected(s: State, stream: seq<Token>, alloc: Allocation, vs: array?<real>, ix: array?<uint32>,
                     ns: array?<real>, cur: nat, err: Error)
    requires ParseHeader(stream).Rejected?
    ensures var t := Loaded(s, Import, stream, alloc, vs, ix, ns, cur, err);
            t.error == FormatError && t.input == stream && 1 <= t.cursor < HEADER_TOKENS &&
            (t.vertices, t.indices, t.normals, t.texMaps, t.attribMaps) == (null, null, null, [], []) &&
            (t.precision, t.output) == (s.precision, s.output)
  {
  }

  /** A stream that starts with an encoded header loads, when every malloc
      succeeds, as a context holding exactly that header's method, counts and
      comment, with the new arrays. */
  lemma LoadEncoded(s: State, h: Header, payload: seq<Token>, vs: array?<real>, ix: array?<uint32>,
                    ns: array?<real>, cur: nat, err: Error)
    requires Writable(h)
    ensures var t := Loaded(s, Import, EncodeHeader(h) + payload, Allocation(true, true, true), vs, ix, ns, cur, err);
            (t.compression, t.vertexCount, t.triangleCount, t.texMapCount, t.attribMapCount, t.comment) ==
            (h.compression, h.vertexCount, h.triangleCount, h.texMapCount, h.attribMapCount, h.comment) &&
            (t.vertices, t.indices, t.normals, t.cursor, t.error) == (vs, ix, ns, cur, err)
  {
    ParseEncoded(h, payload);
  }

  /** Loading the same stream again, into the context a load left behind, reads
      the header to the same fields. */
  lemma {:induction false} ReloadSame(stream: seq<Token>, f: HeaderFields)
    requires (f.cursor, f.vertexCount, f.triangleCount, f.texMapCount, f.attribMapCount) == (0, 0, 0, 0, 0)
    ensures var g := HeaderReads(stream, f);
            HeaderReads(stream, g.(cursor := 0, vertexCount := 0, triangleCount := 0, texMapCount := 0,
                                   attribMapCount := 0)) == g
  {
  }

  class Context {
    const mode: Mode
    var error: Error
    var compression: Method
    var precision: real
    var comment: Option<string>
    var vertices: array?<real>
    var vertexCount: uint32
    var indices: array?<uint32>
    var triangleCount: uint32
    var normals: array?<real>
    var texMaps: seq<FloatMap>
    var texMapCount: uint32
    var attribMaps: seq<FloatMap>
    var attribMapCount: uint32
    // The bound read stream (mReadFn, mUserData) with its read position, and
    // the bound write stream (mWriteFn, mUserData).
    var input: seq<Token>
    var cursor: nat
    var output: seq<Token>

    /** The arrays this context has freed. */
    ghost var freed: set<object>
    /** The backend calls made so far, in order. */
    ghost var backends: seq<Backend>
    /** False once ctmFreeContext has released the context. */
    ghost var live: bool

    ghost function Current(): State
      reads this
    {
      State(error, compression, precision, comment, vertices, vertexCount, indices, triangleCount,
            normals, texMaps, texMapCount, attribMaps, attribMapCount, input, cursor, output)
    }

    /** The mesh arrays the context points at. */
    ghost function MeshArrays(): set<object>
      reads this`vertices, this`indices, this`normals
    {
      (if vertices != null then {vertices as object} else {}) +
      (if indices != null then {indices as object} else {}) +
      (if normals != null then {normals as object} else {})
    }

    /** What _ctmClearMesh frees: in Import mode the mesh arrays and the value
        arrays of both map lists; in Export mode nothing, since the caller owns them. */
    ghost function Owned(): set<object>
      reads this`vertices, this`indices, this`normals, this`texMaps, this`attribMaps
    {
      if mode == Import then MeshArrays() + ValuesOf(texMaps) + ValuesOf(attribMaps) else {}
    }

    /** The object invariant: the context is alive, holds no empty comment, frees
        nothing in Export mode, and in Import mode holds arrays sized by the counts
        that it has not freed, and no maps: ctmAddTexMap, ctmAddAttribMap and the
        map allocation of ctmLoadCustom are stubs, so no reachable context holds
        a map. */
    ghost predicate Valid()
      reads this`live, this`comment, this`freed, this`vertices, this`vertexCount, this`indices,
            this`triangleCount, this`normals, this`texMaps, this`attribMaps
    {
      live &&
      comment != Some([]) &&
      (mode == Export ==> freed == {}) &&
      (mode == Import ==>
        texMaps == [] && attribMaps == [] &&
        (vertices != null ==> vertices.Length == 3 * vertexCount as int && vertices !in freed) &&
        (indices != null ==> indices.Length == 3 * triangleCount as int && indices !in freed) &&
        (normals != null ==> normals.Length == 3 * vertexCount as int && normals !in freed && normals != vertices))
    }

    /** The mesh is complete enough for ctmSaveCustom. */
    predicate MeshPresent()
      reads this`vertices, this`indices, this`vertexCount, this`triangleCount
    {
      vertices != null && indices != null && vertexCount >= 1 && triangleCount >= 1
    }

    /** The header ctmSaveCustom writes for the current mesh and settings. */
    function HeaderOf(): Header
      reads this`compression, this`vertexCount, this`triangleCount, this`texMapCount,
            this`attribMapCount, this`normals, this`comment
    {
      Header(compression, vertexCount, triangleCount, texMapCount, attribMapCount,
             FlagsFor(normals != null), comment)
    }

    /** ctmNewContext */
    constructor (m: Mode)
      ensures Valid() && mode == m
      ensures Current() == InitialState()
      ensures freed == {} && backends == []
    {
      mode := m;
      error := NoError;
      compression := Mg1;
      precision := DEFAULT_PRECISION;
      comment := None;
      vertices, vertexCount := null, 0;
      indices, triangleCount := null, 0;
      normals := null;
      texMaps, texMapCount := [], 0;
      attribMaps, attribMapCount := [], 0;
      input, cursor, output := [], 0, [];
      freed, backends, live := {}, [], true;
    }

    /** _ctmFreeMapList, with the advance to the next node that the source omits:
        pass k of the loop is pass k of `IntendedRun`, and the ghost `run` returned
        says that every node is freed exactly once. */
    method FreeMapList(maps: seq<FloatMap>) returns (ghost run: Run)
      modifies this`freed
      ensures freed == old(freed) + (if mode == Import then ValuesOf(maps) else {})
      ensures run == IntendedRun(maps, |maps|)
      ensures forall i: nat :: run.frees[i] == if i < |maps| then 1 else 0
    {
      var k := 0;
      run := Run(0, multiset{});
      while k < |maps|
        invariant 0 <= k <= |maps|
        invariant run == IntendedRun(maps, k) && run.node == k
        invariant freed == old(freed) + (if mode == Import then ValuesOf(maps[..k]) else {})
      {
        assert maps[..k + 1][..k] == maps[..k];
        // Free the value array (Import mode only); the name and the node itself
        // are always released.
        if mode == Import && maps[k].values != null {
          freed := freed + {maps[k].values};
        }
        run := Run(k + 1, run.frees + multiset{k});
        k := k + 1;
      }
      assert maps[..k] == maps;
      IntendedVisitsEach(maps, |maps|);
    }

    /** _ctmClearMesh */
    method ClearMesh()
      requires Valid()
      modifies this`vertices, this`vertexCount, this`indices, this`triangleCount, this`normals,
               this`texMaps, this`texMapCount, this`attribMaps, this`attribMapCount, this`freed
      ensures Valid()
      ensures (vertices, vertexCount, indices, triangleCount, normals, texMaps, texMapCount, attribMaps, attribMapCount) ==
              (null, 0, null, 0, null, [], 0, [], 0)
      ensures freed == old(freed) + old(Owned())
    {
      if mode == Import {
        freed := freed + MeshArrays();
      }
      vertices, vertexCount, indices, triangleCount, normals := null, 0, null, 0, null;
      ghost var texRun := FreeMapList(texMaps);
      texMaps, texMapCount := [], 0;
      ghost var attribRun := FreeMapList(attribMaps);
      attribMaps, attribMapCount := [], 0;
    }

    /** ctmGetInteger */
    method GetInteger(property: int) returns (r: uint32)
      requires Valid()
      modifies this`error
      ensures Valid()
      ensures property == VERTEX_COUNT ==> r == vertexCount && error == old(error)
      ensures property == TRIANGLE_COUNT ==> r == triangleCount && error == old(error)
      ensures property == TEX_MAP_COUNT ==> r == texMapCount && error == old(error)
      ensures property == ATTRIB_MAP_COUNT ==> r == attribMapCount && error == old(error)
      ensures property == HAS_NORMALS ==>
                r == (if normals != null then CTM_TRUE else CTM_FALSE) && error == old(error)
      ensures property !in {VERTEX_COUNT, TRIANGLE_COUNT, TEX_MAP_COUNT, ATTRIB_MAP_COUNT, HAS_NORMALS} ==>
                r == 0 && error == InvalidArgument
    {
      if property == VERTEX_COUNT {
        r := vertexCount;
      } else if property == TRIANGLE_COUNT {
        r := triangleCount;
      } else if property == TEX_MAP_COUNT {
        r := texMapCount;
      } else if property == ATTRIB_MAP_COUNT {
        r := attribMapCount;
      } else if property == HAS_NORMALS {
        r := if normals != null then CTM_TRUE else CTM_FALSE;
      } else {
        error := InvalidArgument;
        r := 0;
      }
    }

    /** ctmGetIntegerArray */
    method GetIntegerArray(property: int) returns (r: array?<uint32>)
      requires Valid()
      modifies this`error
      ensures Valid()
      ensures property == INDICES ==> r == indices && error == old(error)
      ensures property != INDICES ==> r == null && error == InvalidArgument
    {
      if property == INDICES {
        r := indices;
      } else {
        error := InvalidArgument;
        r := null;
      }
    }

    /** The selector names texture map property - TEX_MAP_1 of the declared count. */
    predicate IsTexMap(property: int)
      reads this`texMapCount
    {
      property >= TEX_MAP_1 && property - TEX_MAP_1 < texMapCount as int
    }

    /** The selector names attribute map property - ATTRIB_MAP_1 of the declared count. */
    predicate IsAttribMap(property: int)
      reads this`attribMapCount
    {
      property >= ATTRIB_MAP_1 && property - ATTRIB_MAP_1 < attribMapCount as int
    }

    /** ctmGetFloatArray: the texture maps are tried first, then the attribute
        maps, then the vertex and normal arrays. */
    method GetFloatArray(property: int) returns (r: array?<real>)
      requires Valid()
      modifies this`error
      ensures Valid()
      ensures IsTexMap(property) && property - TEX_MAP_1 < |texMaps| ==>
                r == texMaps[property - TEX_MAP_1].values && error == old(error)
      ensures IsTexMap(property) && property - TEX_MAP_1 >= |texMaps| ==>
                r == null && error == InvalidArgument
      ensures !IsTexMap(property) && IsAttribMap(property) && property - ATTRIB_MAP_1 < |attribMaps| ==>
                r == attribMaps[property - ATTRIB_MAP_1].values && error == old(error)
      ensures !IsTexMap(property) && IsAttribMap(property) && property - ATTRIB_MAP_1 >= |attribMaps| ==>
                r == null && error == InvalidArgument
      ensures !IsTexMap(property) && !IsAttribMap(property) ==>
                (property == VERTICES ==> r == vertices && error == old(error)) &&
                (property == NORMALS ==> r == normals && error == old(error)) &&
                (property != VERTICES && property != NORMALS ==> r == null && error == InvalidArgument)
    {
      if property >= TEX_MAP_1 && property - TEX_MAP_1 < texMapCount as int {
        var found := FindMap(texMaps, TEX_MAP_1, property);
        if found.None? {
          error := InvalidArgument;
          return null;
        }
        return found.value.values;
      }
      if property >= ATTRIB_MAP_1 && property - ATTRIB_MAP_1 < attribMapCount as int {
        var found := FindMap(attribMaps, ATTRIB_MAP_1, property);
        if found.None? {
          error := InvalidArgument;
          return null;
        }
        return found.value.values;
      }
      if property == VERTICES {
        r := vertices;
      } else if property == NORMALS {
        r := normals;
      } else {
        error := InvalidArgument;
        r := null;
      }
    }

    /** ctmGetString */
    method GetString(property: int) returns (r: Option<string>)
      requires Valid()
      modifies this`error
      ensures Valid()
      ensures property == FILE_COMMENT ==> r == comment && error == old(error)
      ensures property != FILE_COMMENT ==> r == None && error == InvalidArgument
    {
      if property == FILE_COMMENT {
        r := comment;
      } else {
        error := InvalidArgument;
        r := None;
      }
    }

    /** ctmCompressionMethod */
    method CompressionMethod(code: int)
      requires Valid()
      modifies this`error, this`compression
      ensures Valid()
      ensures mode == Import ==> error == InvalidOperation && compression == old(compression)
      ensures mode == Export && MethodOfCode(code).None? ==>
                error == InvalidArgument && compression == old(compression)
      ensures mode == Export && MethodOfCode(code).Some? ==>
                compression == MethodOfCode(code).value && error == old(error)
    {
      if mode != Export {
        error := InvalidOperation;
        return;
      }
      if code != METHOD_RAW && code != METHOD_MG1 && code != METHOD_MG2 {
        error := InvalidArgument;
        return;
      }
      compression := if code == METHOD_RAW then Raw else if code == METHOD_MG1 then Mg1 else Mg2;
    }

    /** ctmVertexPrecision */
    method VertexPrecision(p: real)
      requires Valid()
      modifies this`error, this`precision
      ensures Valid()
      ensures mode == Import ==> error == InvalidOperation && precision == old(precision)
      ensures mode == Export && p <= 0.0 ==> error == InvalidArgument && precision == old(precision)
      ensures mode == Export && p > 0.0 ==> precision == p && error == old(error)
    {
      if mode != Export {
        error := InvalidOperation;
        return;
      }
      if p <= 0.0 {
        error := InvalidArgument;
        return;
      }
      precision := p;
    }

    /** ctmVertexPrecisionRel: the precision becomes rel times the average length
        of every half-edge of every triangle. */
    method VertexPrecisionRel(rel: real, length: (Point, Point) -> real)
      requires Valid()
      requires mode == Export && rel > 0.0 ==>
                 Readable(Contents(vertices), Contents(indices), triangleCount as int)
      modifies this`error, this`precision
      ensures Valid()
      ensures mode == Import ==> error == InvalidOperation && precision == old(precision)
      ensures mode == Export && rel <= 0.0 ==> error == InvalidArgument && precision == old(precision)
      ensures mode == Export && rel > 0.0 && triangleCount == 0 ==>
                error == InvalidMesh && precision == old(precision)
      ensures mode == Export && rel > 0.0 && triangleCount > 0 ==>
                error == old(error) &&
                Wrap32(3 * triangleCount as int) != 0 &&
                precision == old(RelativePrecision(Contents(vertices), Contents(indices), triangleCount as int, length, rel))
    {
      if mode != Export {
        error := InvalidOperation;
        return;
      }
      if rel <= 0.0 {
        error := InvalidArgument;
        return;
      }
      var total, edgeCount := SumHalfEdges(vertices, indices, triangleCount, length);
      if edgeCount == 0 {
        error := InvalidMesh;
        return;
      }
      PrecisionOfSums(Contents(vertices), Contents(indices), triangleCount as int, length, rel, total, edgeCount);
      precision := rel * (total / (edgeCount as real));
    }

    /** ctmTexCoordPrecision: only the argument checks (the rest is a FIXME). */
    method TexCoordPrecision(texMap: int, p: real)
      requires Valid()
      modifies this`error
      ensures Valid()
      ensures mode == Import ==> error == InvalidOperation
      ensures mode == Export && (p <= 0.0 || !IsTexMap(texMap)) ==> error == InvalidArgument
      ensures mode == Export && p > 0.0 && IsTexMap(texMap) ==> error == old(error)
    {
      if mode != Export {
        error := InvalidOperation;
        return;
      }
      if p <= 0.0 || texMap < TEX_MAP_1 || texMap - TEX_MAP_1 >= texMapCount as int {
        error := InvalidArgument;
        return;
      }
    }

    /** ctmAttribPrecision: only the argument checks (the rest is a FIXME). */
    method AttribPrecision(attribMap: int, p: real)
      requires Valid()
      modifies this`error
      ensures Valid()
      ensures mode == Import ==> error == InvalidOperation
      ensures mode == Export && (p <= 0.0 || !IsAttribMap(attribMap)) ==> error == InvalidArgument
      ensures mode == Export && p > 0.0 && IsAttribMap(attribMap) ==> error == old(error)
    {
      if mode != Export {
        error := InvalidOperation;
        return;
      }
      if p <= 0.0 || attribMap < ATTRIB_MAP_1 || attribMap - ATTRIB_MAP_1 >= attribMapCount as int {
        error := InvalidArgument;
        return;
      }
    }

    /** ctmFileComment; `copied` is whether malloc of the copy succeeds. */
    method FileComment(text: Option<string>, copied: bool)
      requires Valid()
      modifies this`error, this`comment
      ensures Valid()
      ensures mode == Import ==> error == InvalidOperation && comment == old(comment)
      ensures mode == Export && (text == None || text == Some([])) ==>
                comment == None && error == old(error)
      ensures mode == Export && text.Some? && text.value != [] && copied ==>
                comment == text && error == old(error)
      ensures mode == Export && text.Some? && text.value != [] && !copied ==>
                comment == None && error == OutOfMemory
    {
      if mode != Export {
        error := InvalidOperation;
        return;
      }
      comment := None;
      if text.None? {
        return;
      }
      if |text.value| == 0 {
        return;
      }
      if !copied {
        error := OutOfMemory;
        return;
      }
      comment := text;
    }

    /** ctmDefineMesh: the context keeps the caller's arrays themselves. */
    method DefineMesh(vs: array?<real>, vc: uint32, ix: array?<uint32>, tc: uint32, ns: array?<real>)
      requires Valid()
      modifies this`error, this`vertices, this`vertexCount, this`indices, this`triangleCount,
               this`normals, this`texMaps, this`texMapCount, this`attribMaps, this`attribMapCount,
               this`freed
      ensures Valid() && freed == old(freed)
      ensures mode == Import ==> error == InvalidOperation
      ensures mode == Export && (vs == null || ix == null || vc == 0 || tc == 0) ==> error == InvalidArgument
      ensures mode == Import || vs == null || ix == null || vc == 0 || tc == 0 ==>
                (vertices, vertexCount, indices, triangleCount, normals, texMaps, texMapCount, attribMaps,
                 attribMapCount) ==
                old((vertices, vertexCount, indices, triangleCount, normals, texMaps, texMapCount, attribMaps,
                     attribMapCount))
      ensures mode == Export && vs != null && ix != null && vc != 0 && tc != 0 ==>
                error == old(error) &&
                (vertices, vertexCount, indices, triangleCount, normals, texMaps, texMapCount, attribMaps,
                 attribMapCount) ==
                (vs, vc, ix, tc, ns, [], 0, [], 0)
    {
      if mode != Export {
        error := InvalidOperation;
        return;
      }
      if vs == null || ix == null || vc == 0 || tc == 0 {
        error := InvalidArgument;
        return;
      }
      ClearMesh();
      vertices, vertexCount := vs, vc;
      indices, triangleCount := ix, tc;
      normals := ns;
    }

    /** ctmAddTexMap: a FIXME stub that adds nothing. */
    method AddTexMap(values: array?<real>, name: Option<string>) returns (r: int)
      ensures r == NONE
    {
      r := NONE;
    }

    /** ctmAddAttribMap: a FIXME stub that adds nothing. */
    method AddAttribMap(values: array?<real>, name: Option<string>) returns (r: int)
      ensures r == NONE
    {
      r := NONE;
    }

    /** _ctmStreamReadUINT */
    method ReadUInt() returns (w: uint32)
      modifies this`cursor
      ensures w == WordAt(input, old(cursor)) && cursor == old(cursor) + 1
    {
      w := WordAt(input, cursor);
      cursor := cursor + 1;
    }

    /** _ctmStreamReadSTRING */
    method ReadString() returns (s: string)
      modifies this`cursor
      ensures s == TextAt(input, old(cursor)) && cursor == old(cursor) + 1
    {
      s := TextAt(input, cursor);
      cursor := cursor + 1;
    }

    /** _ctmStreamWriteUINT; also _ctmStreamWrite of a four-byte tag, written as
        the word that _ctmStreamReadUINT reads those bytes back as. */
    method WriteUInt(w: uint32)
      modifies this`output
      ensures output == old(output) + [Word(w)]
    {
      output := output + [Word(w)];
    }

    /** _ctmStreamWriteSTRING */
    method WriteString(s: string)
      modifies this`output
      ensures output == old(output) + [Text(s)]
    {
      output := output + [Text(s)];
    }

    // The compression backends.  Only their contracts are used: a decoder reads
    // on from the cursor and fills the already allocated arrays in place; an
    // encoder appends to the bound write stream.  Either may set the error.

    /** _ctmUncompressMesh_RAW */
    method UncompressRaw()
      requires Valid()
      modifies this`cursor, this`error, this`backends, MeshArrays()
      ensures Valid() && cursor >= old(cursor)
      ensures backends == old(backends) + [Uncompress(Raw)]
    {
      backends := backends + [Uncompress(Raw)];
    }

    /** _ctmUncompressMesh_MG1 */
    method UncompressMg1()
      requires Valid()
      modifies this`cursor, this`error, this`backends, MeshArrays()
      ensures Valid() && cursor >= old(cursor)
      ensures backends == old(backends) + [Uncompress(Mg1)]
    {
      backends := backends + [Uncompress(Mg1)];
    }

    /** _ctmUncompressMesh_MG2 */
    method UncompressMg2()
      requires Valid()
      modifies this`cursor, this`error, this`backends, MeshArrays()
      ensures Valid() && cursor >= old(cursor)
      ensures backends == old(backends) + [Uncompress(Mg2)]
    {
      backends := backends + [Uncompress(Mg2)];
    }

    /** _ctmCompressMesh_RAW */
    method CompressRaw()
      requires Valid()
      modifies this`output, this`error, this`backends
      ensures Valid()
      ensures |output| >= |old(output)| && output[..|old(output)|] == old(output)
      ensures backends == old(backends) + [Compress(Raw)]
    {
      backends := backends + [Compress(Raw)];
    }

    /** _ctmCompressMesh_MG1 */
    method CompressMg1()
      requires Valid()
      modifies this`output, this`error, this`backends
      ensures Valid()
      ensures |output| >= |old(output)| && output[..|old(output)|] == old(output)
      ensures backends == old(backends) + [Compress(Mg1)]
    {
      backends := backends + [Compress(Mg1)];
    }

    /** _ctmCompressMesh_MG2 */
    method CompressMg2()
      requires Valid()
      modifies this`output, this`error, this`backends
      ensures Valid()
      ensures |output| >= |old(output)| && output[..|old(output)|] == old(output)
      ensures backends == old(backends) + [Compress(Mg2)]
    {
      backends := backends + [Compress(Mg2)];
    }

    /** The first three header reads of ctmLoadCustom: the magic word, the format
        version and the method tag, which stores the method it names.  The reads
        stop after the first word that fails its check, and the result is whether
        all three pass. */
    method ReadPreamble() returns (known: bool)
      modifies this`cursor, this`compression
      ensures var s, p := input, old(cursor);
              known <==> WordAt(s, p) == FOURCC_OCTM && WordAt(s, p + 1) == FORMAT_VERSION &&
                         MethodOfTag(WordAt(s, p + 2)).Some?
      ensures var s, p := input, old(cursor);
              (cursor, compression) ==
              if WordAt(s, p) != FOURCC_OCTM then (p + 1, old(compression))
              else if WordAt(s, p + 1) != FORMAT_VERSION then (p + 2, old(compression))
              else if MethodOfTag(WordAt(s, p + 2)).None? then (p + 3, old(compression))
              else (p + 3, MethodOfTag(WordAt(s, p + 2)).value)
    {
      var magic := ReadUInt();
      if magic != FOURCC_OCTM {
        return false;
      }
      var version := ReadUInt();
      if version != FORMAT_VERSION {
        return false;
      }
      var tag := ReadUInt();
      if tag == FOURCC_RAW {
        compression := Raw;
      } else if tag == FOURCC_MG1 {
        compression := Mg1;
      } else if tag == FOURCC_MG2 {
        compression := Mg2;
      } else {
        return false;
      }
      known := true;
    }

    /** The last header reads of ctmLoadCustom, which nothing checks: the two map
        counts, the flags (returned) and the comment. */
    method ReadTail() returns (flags: uint32)
      modifies this`cursor, this`texMapCount, this`attribMapCount, this`comment
      ensures (cursor, texMapCount, attribMapCount, flags, comment) ==
              (old(cursor) + 4, WordAt(input, old(cursor)), WordAt(input, old(cursor) + 1),
               WordAt(input, old(cursor) + 2), CommentOf(TextAt(input, old(cursor) + 3)))
    {
      texMapCount := ReadUInt();
      attribMapCount := ReadUInt();
      flags := ReadUInt();
      var text := ReadString();
      comment := CommentOf(text);
    }

    /** The header reads of ctmLoadCustom, from the start of the bound stream:
        each field is stored as it is read (a read being _ctmStreamReadUINT or
        _ctmStreamReadSTRING at the cursor), and the first failed check stops
        the reads with CTM_FORMAT_ERROR.  The flags are returned. */
    method ReadHeader(stream: seq<Token>) returns (ok: bool, flags: uint32)
      requires input == stream && cursor == 0 && comment != Some([])
      modifies this`cursor, this`error, this`compression, this`vertexCount, this`triangleCount,
               this`texMapCount, this`attribMapCount, this`comment
      ensures comment != Some([])
      ensures ok <==> ParseHeader(stream).Parsed?
      ensures ok ==> flags == ParseHeader(stream).header.flags
      ensures HeaderFields(cursor, error, compression, vertexCount, triangleCount, texMapCount, attribMapCount,
                           comment) ==
              HeaderReads(stream, old(HeaderFields(cursor, error, compression, vertexCount, triangleCount,
                                                   texMapCount, attribMapCount, comment)))
    {
      ghost var f := HeaderFields(0, error, compression, vertexCount, triangleCount, texMapCount, attribMapCount,
                                  comment);
      ok, flags := false, 0;
      var known := ReadPreamble();
      if !known {
        error := FormatError;
        return;
      }
      var vc := ReadUInt();
      assert vc == WordAt(stream, 3) && cursor == 4;
      vertexCount := vc;
      if vc == 0 {
        assert HeaderReads(stream, f) == f.(cursor := 4, error := FormatError, compression := compression, vertexCount := 0);
        error := FormatError;
        return;
      }
      var tc := ReadUInt();
      assert tc == WordAt(stream, 4) && cursor == 5;
      triangleCount := tc;
      if tc == 0 {
        assert HeaderReads(stream, f) ==
               f.(cursor := 5, error := FormatError, compression := compression, vertexCount := vc, triangleCount := 0);
        error := FormatError;
        return;
      }
      flags := ReadTail();
      assert ParseHeader(stream) ==
             Parsed(Header(compression, vc, tc, texMapCount, attribMapCount, flags, comment));
      ok := true;
    }

    /** The start of ctmLoadCustom in Import mode: bind the stream, clear (and
        so free) the old mesh, read the header. */
    method BeginLoad(stream: seq<Token>) returns (ok: bool, flags: uint32)
      requires Valid()
      modifies this`input, this`cursor, this`error, this`compression, this`comment,
               this`vertices, this`vertexCount, this`indices, this`triangleCount, this`normals,
               this`texMaps, this`texMapCount, this`attribMaps, this`attribMapCount, this`freed
      ensures Valid()
      ensures ok <==> ParseHeader(stream).Parsed?
      ensures ok ==> flags == ParseHeader(stream).header.flags
      ensures (input, vertices, indices, normals, texMaps, attribMaps) == (stream, null, null, null, [], [])
      ensures HeaderFields(cursor, error, compression, vertexCount, triangleCount, texMapCount, attribMapCount,
                           comment) ==
              HeaderReads(stream, HeaderFields(0, old(error), old(compression), 0, 0, 0, 0, old(comment)))
      ensures freed == old(freed) + old(Owned())
    {
      input, cursor := stream, 0;
      ClearMesh();
      ok, flags := ReadHeader(stream);
    }

    /** The allocations of ctmLoadCustom.  When the index or normal array cannot
        be allocated the mesh is cleared again, freeing what was allocated. */
    method AllocateMesh(flags: uint32, alloc: Allocation) returns (ok: bool)
      requires Valid() && mode == Import
      requires vertices == null && indices == null && normals == null && texMaps == [] && attribMaps == []
      modifies this`error, this`vertices, this`vertexCount, this`indices, this`triangleCount,
               this`normals, this`texMaps, this`texMapCount, this`attribMaps, this`attribMapCount, this`freed
      ensures Valid()
      ensures ok <==> Allocates(flags, alloc)
      ensures !alloc.vertices ==>
                error == OutOfMemory &&
                (vertices, vertexCount, indices, triangleCount, normals, texMaps, texMapCount, attribMaps,
                 attribMapCount) ==
                old((vertices, vertexCount, indices, triangleCount, normals, texMaps, texMapCount, attribMaps,
                     attribMapCount))
      ensures alloc.vertices && !ok ==>
                error == OutOfMemory &&
                (vertices, vertexCount, indices, triangleCount, normals, texMaps, texMapCount, attribMaps,
                 attribMapCount) ==
                (null, 0, null, 0, null, [], 0, [], 0)
      ensures ok ==>
                error == old(error) &&
                (vertexCount, triangleCount, texMaps, texMapCount, attribMaps, attribMapCount) ==
                old((vertexCount, triangleCount, texMaps, texMapCount, attribMaps, attribMapCount))
      ensures ok ==>
                vertices != null && fresh(vertices) && indices != null && fresh(indices) &&
                (normals != null <==> HasNormals(flags)) && (normals != null ==> fresh(normals))
      ensures ok || !alloc.vertices ==> freed == old(freed)
      ensures old(freed) <= freed && fresh(freed - old(freed))
    {
      if !alloc.vertices {
        error := OutOfMemory;
        return false;
      }
      vertices := new real[3 * vertexCount as int];
      if !alloc.indices {
        ClearMesh();
        error := OutOfMemory;
        return false;
      }
      indices := new uint32[3 * triangleCount as int];
      if HasNormals(flags) {
        if !alloc.normals {
          ClearMesh();
          error := OutOfMemory;
          return false;
        }
        normals := new real[3 * vertexCount as int];
      }
      // The texture and attribute map arrays are not allocated (FIXME in the source).
      ok := true;
    }

    /** The switch of ctmLoadCustom on the method read: the decoder for it. */
    method Decode()
      requires Valid() && mode == Import
      modifies this`cursor, this`error, this`backends, MeshArrays()
      ensures Valid() && cursor >= old(cursor)
      ensures backends == old(backends) + [Uncompress(compression)]
    {
      match compression {
        case Raw => UncompressRaw();
        case Mg1 => UncompressMg1();
        case Mg2 => UncompressMg2();
      }
    }

    /** The rest of ctmLoadCustom once the header is read: the allocations, then
        the decoder when they all succeed. */
    method FinishLoad(flags: uint32, alloc: Allocation)
      requires Valid() && mode == Import
      requires vertices == null && indices == null && normals == null && texMaps == [] && attribMaps == []
      modifies this`cursor, this`error, this`vertices, this`vertexCount, this`indices, this`triangleCount,
               this`normals, this`texMaps, this`texMapCount, this`attribMaps, this`attribMapCount,
               this`freed, this`backends
      ensures Valid()
      ensures !alloc.vertices ==>
                error == OutOfMemory &&
                (cursor, vertices, vertexCount, indices, triangleCount, normals, texMaps, texMapCount, attribMaps,
                 attribMapCount) ==
                old((cursor, vertices, vertexCount, indices, triangleCount, normals, texMaps, texMapCount, attribMaps,
                     attribMapCount))
      ensures alloc.vertices && !Allocates(flags, alloc) ==>
                error == OutOfMemory &&
                (cursor, vertices, vertexCount, indices, triangleCount, normals, texMaps, texMapCount, attribMaps,
                 attribMapCount) ==
                (old(cursor), null, 0, null, 0, null, [], 0, [], 0)
      ensures Allocates(flags, alloc) ==>
                (vertexCount, triangleCount, texMaps, texMapCount, attribMaps, attribMapCount) ==
                old((vertexCount, triangleCount, texMaps, texMapCount, attribMaps, attribMapCount))
      ensures Allocates(flags, alloc) ==>
                vertices != null && fresh(vertices) && indices != null && fresh(indices) &&
                (normals != null <==> HasNormals(flags)) && (normals != null ==> fresh(normals)) &&
                cursor >= old(cursor)
      ensures Allocates(flags, alloc) || !alloc.vertices ==> freed == old(freed)
      ensures old(freed) <= freed && fresh(freed - old(freed))
      ensures backends == old(backends) + (if Allocates(flags, alloc) then [Uncompress(compression)] else [])
    {
      var ok := AllocateMesh(flags, alloc);
      if ok {
        Decode();
      }
    }

    /** The Import-mode part of ctmLoadCustom: clear the mesh, read the header
        and, when it is accepted, allocate and decode the mesh. */
    method ImportCustom(stream: seq<Token>, alloc: Allocation)
      requires Valid() && mode == Import
      modifies this`input, this`cursor, this`error, this`compression, this`comment,
               this`vertices, this`vertexCount, this`indices, this`triangleCount, this`normals,
               this`texMaps, this`texMapCount, this`attribMaps, this`attribMapCount, this`freed, this`backends
      ensures Valid()
      ensures var t := Loaded(old(Current()), mode, stream, alloc, vertices, indices, normals, cursor, error);
              (input, cursor, error, compression, comment, vertices, vertexCount, indices, triangleCount, normals,
               texMaps, texMapCount, attribMaps, attribMapCount) ==
              (t.input, t.cursor, t.error, t.compression, t.comment, t.vertices, t.vertexCount, t.indices,
               t.triangleCount, t.normals, t.texMaps, t.texMapCount, t.attribMaps, t.attribMapCount)
      ensures Decodes(mode, stream, alloc) ==>
                vertices != null && fresh(vertices) && indices != null && fresh(indices) &&
                (normals != null <==> HasNormals(ParseHeader(stream).header.flags)) &&
                (normals != null ==> fresh(normals)) && cursor >= HEADER_TOKENS
      ensures old(freed) + old(Owned()) <= freed && fresh(freed - old(freed) - old(Owned()))
      ensures backends == old(backends) + LoadBackends(mode, stream, alloc)
    {
      var ok, flags := BeginLoad(stream);
      if ok {
        FinishLoad(flags, alloc);
      }
    }

    /** ctmLoadCustom; `stream` is what the bound read stream delivers and `alloc`
        says which mallocs succeed. */
    method LoadCustom(stream: seq<Token>, alloc: Allocation)
      requires Valid()
      modifies this`input, this`cursor, this`error, this`compression, this`comment,
               this`vertices, this`vertexCount, this`indices, this`triangleCount, this`normals,
               this`texMaps, this`texMapCount, this`attribMaps, this`attribMapCount, this`freed, this`backends
      ensures Valid()
      ensures var t := Loaded(old(Current()), mode, stream, alloc, vertices, indices, normals, cursor, error);
              (input, cursor, error, compression, comment, vertices, vertexCount, indices, triangleCount, normals,
               texMaps, texMapCount, attribMaps, attribMapCount) ==
              (t.input, t.cursor, t.error, t.compression, t.comment, t.vertices, t.vertexCount, t.indices,
               t.triangleCount, t.normals, t.texMaps, t.texMapCount, t.attribMaps, t.attribMapCount)
      ensures Decodes(mode, stream, alloc) ==>
                vertices != null && fresh(vertices) && indices != null && fresh(indices) &&
                (normals != null <==> HasNormals(ParseHeader(stream).header.flags)) &&
                (normals != null ==> fresh(normals)) && cursor >= HEADER_TOKENS
      ensures mode == Export ==> freed == old(freed)
      ensures mode == Import ==> old(freed) + old(Owned()) <= freed && fresh(freed - old(freed) - old(Owned()))
      ensures backends == old(backends) + LoadBackends(mode, stream, alloc)
    {
      if mode != Import {
        error := InvalidOperation;
      } else {
        ImportCustom(stream, alloc);
      }
    }

    /** ctmLoad; `file` is the opened stream, or None when fopen fails. */
    method Load(file: Option<seq<Token>>, alloc: Allocation)
      requires Valid()
      modifies this`input, this`cursor, this`error, this`compression, this`comment,
               this`vertices, this`vertexCount, this`indices, this`triangleCount, this`normals,
               this`texMaps, this`texMapCount, this`attribMaps, this`attribMapCount, this`freed, this`backends
      ensures Valid()
      ensures mode == Import && file.None? ==>
                Current() == old(Current()).(error := FileError) && freed == old(freed) && backends == old(backends)
      ensures mode == Export || file.Some? ==>
                var t := Loaded(old(Current()), mode, if file.Some? then file.value else [], alloc,
                                vertices, indices, normals, cursor, error);
                (input, cursor, error, compression, comment, vertices, vertexCount, indices, triangleCount, normals,
                 texMaps, texMapCount, attribMaps, attribMapCount) ==
                (t.input, t.cursor, t.error, t.compression, t.comment, t.vertices, t.vertexCount, t.indices,
                 t.triangleCount, t.normals, t.texMaps, t.texMapCount, t.attribMaps, t.attribMapCount)
      ensures mode == Export ==> freed == old(freed) && backends == old(backends)
      ensures mode == Import && file.Some? ==>
                old(freed) + old(Owned()) <= freed && fresh(freed - old(freed) - old(Owned())) &&
                backends == old(backends) + LoadBackends(mode, file.value, alloc)
    {
      if mode != Import {
        error := InvalidOperation;
        return;
      }
      if file.None? {
        error := FileError;
        return;
      }
      LoadCustom(file.value, alloc);
    }

    /** The header writes of ctmSaveCustom: the magic, the format version, the
        method tag, the four counts, the flags and the comment, in that order. */
    method WriteHeader(flags: uint32)
      requires flags == FlagsFor(normals != null)
      modifies this`output
      ensures output == old(output) + EncodeHeader(HeaderOf())
    {
      var m, vc, tc, txc, atc, text := compression, vertexCount, triangleCount, texMapCount, attribMapCount, TextOf(comment);
      ghost var e := EncodeHeader(HeaderOf());
      WriteUInt(FOURCC_OCTM);
      WriteUInt(FORMAT_VERSION);
      match m {
        case Raw => WriteUInt(FOURCC_RAW);
        case Mg1 => WriteUInt(FOURCC_MG1);
        case Mg2 => WriteUInt(FOURCC_MG2);
      }
      WriteUInt(vc);
      WriteUInt(tc);
      WriteUInt(txc);
      WriteUInt(atc);
      WriteUInt(flags);
      WriteString(text);
      AppendNine(old(output), e);
    }

    /** The dispatch of ctmSaveCustom to the encoder of the context's method. */
    method Encode()
      requires Valid()
      modifies this`output, this`error, this`backends
      ensures Valid()
      ensures |output| >= |old(output)| && output[..|old(output)|] == old(output)
      ensures backends == old(backends) + [Compress(compression)]
    {
      match compression {
        case Raw => CompressRaw();
        case Mg1 => CompressMg1();
        case Mg2 => CompressMg2();
      }
    }

    /** ctmSaveCustom; `sink` is what the bound write stream holds before the
        call and `written` what it holds after. */
    method SaveCustom(sink: seq<Token>) returns (written: seq<Token>)
      requires Valid()
      modifies this`output, this`error, this`backends
      ensures Valid()
      ensures mode == Import ==>
                written == sink && error == InvalidOperation &&
                output == old(output) && backends == old(backends)
      ensures mode == Export && !MeshPresent() ==>
                written == sink && error == InvalidMesh && output == old(output) && backends == old(backends)
      ensures mode == Export && MeshPresent() ==>
                written == output && |written| >= |sink| + HEADER_TOKENS &&
                written[..|sink| + HEADER_TOKENS] == sink + EncodeHeader(HeaderOf()) &&
                backends == old(backends) + [Compress(compression)]
    {
      if mode != Export {
        error := InvalidOperation;
        return sink;
      }
      if vertices == null || indices == null || vertexCount < 1 || triangleCount < 1 {
        error := InvalidMesh;
        return sink;
      }
      written := SaveMesh(sink);
    }

    /** The rest of ctmSaveCustom once the mesh has passed its check: bind the
        stream, compute the flags, write the header, call the encoder. */
    method SaveMesh(sink: seq<Token>) returns (written: seq<Token>)
      requires Valid()
      modifies this`output, this`error, this`backends
      ensures Valid()
      ensures written == output && |written| >= |sink| + HEADER_TOKENS &&
              written[..|sink| + HEADER_TOKENS] == sink + EncodeHeader(HeaderOf()) &&
              backends == old(backends) + [Compress(compression)]
    {
      output := sink;
      var flags: bv32 := 0;
      if normals != null {
        flags := flags | HAS_NORMALS_BIT;
      }
      assert flags as int as uint32 == FlagsFor(normals != null);
      WriteHeader(flags as int as uint32);
      Encode();
      written := output;
    }

    /** ctmSave; `isOpen` is whether fopen succeeds.  The file is opened for
        writing from empty; the result is what it holds afterwards, if it was
        opened. */
    method Save(isOpen: bool) returns (written: Option<seq<Token>>)
      requires Valid()
      modifies this`output, this`error, this`backends
      ensures Valid()
      ensures mode == Import ==>
                written == None && error == InvalidOperation &&
                output == old(output) && backends == old(backends)
      ensures mode == Export && !isOpen ==>
                written == None && error == FileError &&
                output == old(output) && backends == old(backends)
      ensures mode == Export && isOpen && !MeshPresent() ==>
                written == Some([]) && error == InvalidMesh && output == old(output) && backends == old(backends)
      ensures mode == Export && isOpen && MeshPresent() ==>
                written == Some(output) && |output| >= HEADER_TOKENS &&
                output[..HEADER_TOKENS] == EncodeHeader(HeaderOf()) &&
                backends == old(backends) + [Compress(compression)]
    {
      if mode != Export {
        error := InvalidOperation;
        return None;
      }
      if !isOpen {
        error := FileError;
        return None;
      }
      var s := SaveCustom([]);
      written := Some(s);
    }
  }

  lemma AppendNine(o: seq<Token>, e: seq<Token>)
    requires |e| == 9
    ensures o + [e[0]] + [e[1]] + [e[2]] + [e[3]] + [e[4]] + [e[5]] + [e[6]] + [e[7]] + [e[8]] == o + e
  {
    assert e == [e[0]] + [e[1]] + [e[2]] + [e[3]] + [e[4]] + [e[5]] + [e[6]] + [e[7]] + [e[8]];
  }

  /** No array a valid context owns has been freed already, so _ctmClearMesh
      never frees an array that an earlier call freed. */
  lemma NoDoubleFree(c: Context)
    requires c.Valid()
    ensures c.Owned() !! c.freed
  {
  }

  /** The context a handle names: none for a null handle. */
  function Handle(c: Context?): set<Context>
  {
    if c == null then {} else {c}
  }

  /** ctmError: the pending error, which the call clears; CTM_INVALID_CONTEXT for
      a null handle. */
  method QueryError(c: Context?) returns (e: Error)
    requires c != null ==> c.Valid()
    modifies Handle(c)`error
    ensures c == null ==> e == InvalidContext
    ensures c != null ==> c.Valid() && e == old(c.error) && c.error == NoError
  {
    if c == null {
      return InvalidContext;
    }
    e := c.error;
    c.error := NoError;
  }

  /** Two queries in a row: the first takes the pending error, the second finds none. */
  method QueryErrorTwice(c: Context) returns (first: Error, second: Error)
    requires c.Valid()
    modifies c`error
    ensures c.Valid() && first == old(c.error) && second == NoError && c.error == NoError
  {
    first := QueryError(c);
    second := QueryError(c);
  }

  /** ctmFreeContext: releases the mesh as _ctmClearMesh does, then the comment
      and the context; a null handle is ignored. */
  method FreeContext(c: Context?)
    requires c != null ==> c.Valid()
    modifies Handle(c)`vertices, Handle(c)`vertexCount, Handle(c)`indices, Handle(c)`triangleCount,
             Handle(c)`normals, Handle(c)`texMaps, Handle(c)`texMapCount, Handle(c)`attribMaps,
             Handle(c)`attribMapCount, Handle(c)`comment, Handle(c)`freed, Handle(c)`live
    ensures c != null ==>
              !c.live && c.comment == None &&
              (c.vertices, c.vertexCount, c.indices, c.triangleCount, c.normals, c.texMaps, c.texMapCount,
               c.attribMaps, c.attribMapCount) == (null, 0, null, 0, null, [], 0, [], 0) &&
              c.freed == old(c.freed) + old(c.Owned())
  {
    if c == null {
      return;
    }
    c.ClearMesh();
    c.comment := None;
    c.live := false;
  }

  /** The method a fresh context ends up with after ctmCompressionMethod(code). */
  function MethodAfter(code: int): Method
  {
    if MethodOfCode(code).Some? then MethodOfCode(code).value else Mg1
  }

  /** A fresh Export context after ctmCompressionMethod(code) and
      ctmFileComment(text), with a comment copy that succeeds. */
  method NewExporter(code: int, text: Option<string>) returns (c: Context)
    ensures fresh(c) && c.Valid() && c.mode == Export
    ensures (c.compression, c.comment, c.error) ==
            (MethodAfter(code), if text == Some([]) then None else text,
             if MethodOfCode(code).None? then InvalidArgument else NoError)
  {
    c := new Context(Export);
    c.CompressionMethod(code);
    c.FileComment(text, true);
  }

  /** A mesh defined on a fresh Export context, with a method and a comment
      set, and saved to an empty stream: the stream starts with a header that
      reads back as that method, those counts, that normals flag and that
      comment. */
  method SaveDefined(vs: array<real>, vc: uint32, ix: array<uint32>, tc: uint32, ns: array?<real>,
                     code: int, text: Option<string>)
    returns (written: seq<Token>)
    requires vc > 0 && tc > 0
    ensures ParseHeader(written) ==
              Parsed(Header(MethodAfter(code), vc, tc, 0, 0, FlagsFor(ns != null),
                            if text == Some([]) then None else text))
  {
    var exporter := NewExporter(code, text);
    exporter.DefineMesh(vs, vc, ix, tc, ns);
    ghost var h := exporter.HeaderOf();
    assert h == Header(MethodAfter(code), vc, tc, 0, 0, FlagsFor(ns != null),
                       if text == Some([]) then None else text);
    written := exporter.SaveCustom([]);
    assert written[..HEADER_TOKENS] == EncodeHeader(h);
    ParsePrefix(h, written);
  }

  /** A fresh Import context after ctmLoadCustom on a stream whose header is
      accepted, with every malloc succeeding, holds what the header says. */
  method LoadedImporter(stream: seq<Token>) returns (c: Context)
    requires ParseHeader(stream).Parsed?
    ensures fresh(c) && c.Valid() && c.mode == Import
    ensures var h := ParseHeader(stream).header;
            (c.compression, c.vertexCount, c.triangleCount, c.comment, c.normals != null) ==
            (h.compression, h.vertexCount, h.triangleCount, h.comment, HasNormals(h.flags))
  {
    c := new Context(Import);
    c.LoadCustom(stream, Allocation(true, true, true));
  }

  /** A mesh defined and saved by one context and loaded by a fresh Import
      context comes back with the same counts, normals flag, comment and method. */
  method SaveThenLoad(vs: array<real>, vc: uint32, ix: array<uint32>, tc: uint32, ns: array?<real>,
                      code: int, text: Option<string>)
    returns (vertexCount: uint32, triangleCount: uint32, hasNormals: uint32, comment: Option<string>,
             compression: Method)
    requires vc > 0 && tc > 0
    ensures vertexCount == vc && triangleCount == tc
    ensures hasNormals == if ns != null then CTM_TRUE else CTM_FALSE
    ensures comment == if text == Some([]) then None else text
    ensures compression == MethodAfter(code)
  {
    var written := SaveDefined(vs, vc, ix, tc, ns, code, text);
    var importer := LoadedImporter(written);
    vertexCount := importer.GetInteger(VERTEX_COUNT);
    triangleCount := importer.GetInteger(TRIANGLE_COUNT);
    hasNormals := importer.GetInteger(HAS_NORMALS);
    comment := importer.GetString(FILE_COMMENT);
    compression := importer.compression;
  }
}
