# OpenCTM API context — a Dafny model

This project models the session object of the OpenCTM mesh-compression library:
the `_CTMcontext` that `ctmNewContext` creates, and the API functions of
`openctm.c` that act on it.

A context is created in Import or Export mode. It keeps a pending error code, a
compression method, a vertex precision and an optional file comment. It also
holds a mesh: a vertex array, an index array, an optional normal array, their
counts, and two lists of float maps (texture maps and attribute maps).

The model is the class `OpenCtm.Context`, with one field per field of the
C struct. Every API function that takes a context is a method on it with a
contract, and those that change the context carry a `modifies` frame naming the
fields they change (the stubs `ctmAddTexMap` and `ctmAddAttribMap` change
nothing and have none). `ctmError` and `ctmFreeContext`, which accept a null
handle, are module-level methods that take a possibly null context:
- `ctmLoadCustom` binds a read stream, clears the old mesh and reads the
  header. Each check that fails stops it with `CTM_FORMAT_ERROR`, and the
  fields already stored stay set. When the header is accepted it allocates
  the mesh arrays and hands over to the decoder of the method.
- `ctmSaveCustom` checks the mesh and writes the header, then hands over to
  the encoder.
- The getters return fields or set `CTM_INVALID_ARGUMENT`.
- The setters refuse the wrong mode with `CTM_INVALID_OPERATION` and bad
  arguments with `CTM_INVALID_ARGUMENT`.

Pure specification functions state what a load does to the context:
- `HeaderReads` gives the header fields after the reads.
- `AfterHeader` gives the context after the stream is bound, the mesh cleared
  and the header read.
- `Allocated` gives the context after the mallocs.
- `Loaded` gives the context after the whole call.

The header itself is the pure pair `CtmHeader.EncodeHeader` /
`CtmHeader.ParseHeader`, proved to be inverse to one another.

Memory ownership is tracked in a ghost set `freed`. In Import mode the context
owns its arrays and `_ctmClearMesh` frees them. In Export mode it only borrows
the caller's arrays. The invariant `Valid()` says that no mesh array the
context still holds has been freed, and that in Import mode both map lists are
empty: nothing in this version of the source adds a map. `NoDoubleFree` is its consequence:
nothing `_ctmClearMesh` is about to free, mesh array or map value array, was
freed before.

The average edge length of `ctmVertexPrecisionRel` is computed as the source
computes it:
- the index slot `i * 3 + j`, the vertex offset `index * 3` and the edge
  counter are 32-bit unsigned values that wrap;
- the length of an edge is a parameter.

Modules:
- `CtmTypes`: the error, mode and method enumerations, `CTMuint` (`uint32`)
  with its wrap-around, and the stream token type.
- `CtmHeader`: the header as written and read.
- `CtmMaps`: the float-map lists, the walk of `ctmGetFloatArray`, and
  `_ctmFreeMapList` as written.
- `CtmPrecision`: the loops of `ctmVertexPrecisionRel`.
- `OpenCtm`: the context class, the load specification, and the functions
  that take a possibly null handle (`ctmError`, `ctmFreeContext`).

A stream is a sequence of tokens. Each token is one word as
`_ctmStreamReadUINT`/`_ctmStreamWriteUINT` move it, or one string as
`_ctmStreamReadSTRING`/`_ctmStreamWriteSTRING` move it. The magic word and the
method tag, which `ctmSaveCustom` writes as four raw bytes with
`_ctmStreamWrite`, are also one word token each: the word that reading those
four bytes back with `_ctmStreamReadUINT` gives (see "## Left out").

## Model

| member | source | states |
|---|---|---|
| CtmTypes.IncWraps | openctm.c:372 | `++` on a CTMuint is the successor modulo 2^32 |
| CtmHeader.MethodOfTag | openctm.c:613-624 | a tag selects a method exactly when it is one of the three method FOURCCs, and that method's tag is the tag read |
| CtmHeader.MethodTagRoundTrip | openctm.c:766-777 | the tag written for a method reads back as that method |
| CtmHeader.CommentOf | openctm.c:640 | a comment read from the stream is never the empty string, and writing it again gives back the string read |
| CtmHeader.CommentRoundTrip | openctm.c:783 | a stored comment, written and read again, is the same comment |
| CtmHeader.FlagsFor | openctm.c:758-761 | the flags word has the normals bit set exactly when the mesh has normals |
| CtmHeader.ParseHeader | openctm.c:601-640 | a header that passes the checks has a positive vertex count, a positive triangle count and no empty comment, so it can be written again |
| CtmHeader.EncodeHeader | openctm.c:763-783 | the header is nine tokens: eight words and then the comment string |
| CtmHeader.ParseEncoded | openctm.c:601-640 | reading an encoded header, whatever follows it, gives that header back |
| CtmHeader.ParsePrefix | openctm.c:601-640 | any stream that begins with an encoded header is read as that header |
| CtmHeader.EncodeParsed | openctm.c:763-783 | writing an accepted header gives back the header tokens of the stream it was read from |
| CtmHeader.ParseRejects | openctm.c:601-636 | a wrong magic word, a wrong version, an unknown method tag and a zero vertex or triangle count each reject the stream; an accepted header can be written again |
| CtmMaps.FindMap | openctm.c:212-224 | the walk finds an entry exactly when the list has one at position property - first, and returns that entry |
| CtmMaps.ValuesOfMembers | openctm.c:44-46 | the arrays freed for a list are exactly the value arrays of its entries |
| CtmMaps.AsWrittenNeverExits | openctm.c:42-54 | the loop as written, on a non-empty list, is still at the head node after n passes and has freed the head n times and no other node, so the second pass frees it again |
| CtmMaps.IntendedVisitsEach | openctm.c:42-54 | with the advance to the next node, after n passes the loop has freed each of the first min(n, length) nodes exactly once and no other, and it reaches the end after as many passes as there are nodes |
| CtmPrecision.SumTriangle | openctm.c:364-373 | the inner loop, reading each corner at the CTMuint index slot `i * 3 + j` and vertex offset `index * 3`, adds the three half-edges of the triangle in loop order and bumps the counter three times |
| CtmPrecision.SumHalfEdges | openctm.c:360-374 | the nested loops sum every half-edge of every triangle; the counter ends at 3 × triangles mod 2^32, and at zero exactly when there are no triangles |
| CtmPrecision.BumpedWraps | openctm.c:365-373 | three increments of the counter add 3 modulo 2^32 |
| CtmPrecision.EdgesCountedWraps | openctm.c:361-374 | after n triangles the counter holds 3n modulo 2^32 |
| CtmPrecision.EdgeCountZero | openctm.c:375-379 | the counter is zero exactly when the triangle count is zero |
| CtmPrecision.PrecisionOfSums | openctm.c:380-383 | dividing the sum by the counter and scaling by the relative precision gives rel × the average half-edge length |
| CtmPrecision.SingleTriangleAverage | openctm.c:358-380 | one triangle whose half-edges all have length L has average half-edge length L |
| OpenCtm.HeaderReads | openctm.c:601-640 | the header reads stop inside the header exactly when the header is rejected; the error becomes CTM_FORMAT_ERROR exactly then and is otherwise kept; a method stored is the one the tag names, and a comment stored is the one the stream holds |
| OpenCtm.Loaded | openctm.c:581-688 | a load never touches the precision or the write stream; in Import mode it binds the stream and leaves both map lists empty; when it reaches the decoder the context holds the new arrays and the decoder's error; when it does not, the error is CTM_FORMAT_ERROR or CTM_OUT_OF_MEMORY and no mesh array is held |
| OpenCtm.LoadRejected | openctm.c:601-636 | a rejected header leaves the Import context with CTM_FORMAT_ERROR, no arrays or maps, the stream bound, and the read stopped inside the header; precision and output are untouched |
| OpenCtm.LoadEncoded | openctm.c:601-665 | a stream that starts with an encoded header loads, when every malloc succeeds, as a context with that header's method, counts and comment and the new arrays |
| OpenCtm.ReloadSame | openctm.c:594-640 | reading the same stream's header again, from the state a load left, stores the same fields |
| OpenCtm.Context.constructor | openctm.c:94-109 | a new context has no error, method MG1, precision 1/1024, no comment, no mesh, and nothing freed |
| OpenCtm.Context.FreeMapList | openctm.c:38-55 | the traversal, as `IntendedRun` describes it, frees every node exactly once; in Import mode exactly the value arrays of its entries are added to what is freed, in Export mode nothing |
| OpenCtm.Context.ClearMesh | openctm.c:60-89 | every array pointer is null and every count zero afterwards; what is freed grows by exactly what the context owned |
| OpenCtm.Context.GetInteger | openctm.c:149-176 | each count selector returns its count, CTM_HAS_NORMALS returns whether there are normals, and any other selector returns 0 with CTM_INVALID_ARGUMENT |
| OpenCtm.Context.GetIntegerArray | openctm.c:181-196 | CTM_INDICES returns the index array; anything else returns null with CTM_INVALID_ARGUMENT |
| OpenCtm.Context.GetFloatArray | openctm.c:201-259 | a texture-map selector within the declared count returns that entry's values or null with CTM_INVALID_ARGUMENT when the list is shorter; attribute maps likewise; then the vertex and normal arrays; anything else returns null with CTM_INVALID_ARGUMENT |
| OpenCtm.Context.GetString | openctm.c:264-279 | CTM_FILE_COMMENT returns the comment; anything else returns nothing with CTM_INVALID_ARGUMENT |
| OpenCtm.Context.CompressionMethod | openctm.c:284-306 | Import mode is refused with CTM_INVALID_OPERATION, an unknown method code with CTM_INVALID_ARGUMENT, and otherwise the method is set |
| OpenCtm.Context.VertexPrecision | openctm.c:311-332 | Import mode is refused, a precision ≤ 0 is rejected, and otherwise the precision is set |
| OpenCtm.Context.VertexPrecisionRel | openctm.c:337-384 | Import mode is refused and rel ≤ 0 is rejected; with no triangles the error is CTM_INVALID_MESH; otherwise the precision becomes rel × the average half-edge length |
| OpenCtm.Context.TexCoordPrecision | openctm.c:389-411 | Import mode is refused; a precision ≤ 0 or a map outside the declared count is rejected; otherwise nothing changes |
| OpenCtm.Context.AttribPrecision | openctm.c:416-438 | the same checks against the attribute-map count |
| OpenCtm.Context.FileComment | openctm.c:443-478 | Import mode is refused; otherwise the old comment is dropped, and a non-empty text is stored when its copy can be allocated, else CTM_OUT_OF_MEMORY |
| OpenCtm.Context.DefineMesh | openctm.c:483-517 | Import mode is refused; missing arrays or zero counts are rejected; otherwise the mesh is cleared and the caller's arrays and counts are kept, nothing being freed |
| OpenCtm.Context.AddTexMap | openctm.c:522-527 | returns CTM_NONE and adds nothing |
| OpenCtm.Context.AddAttribMap | openctm.c:532-537 | returns CTM_NONE and adds nothing |
| OpenCtm.Context.ReadUInt | openctm.c:602 | a word read yields the word at the read position, 0 past the end, and moves on by one |
| OpenCtm.Context.ReadString | openctm.c:640 | a string read yields the string at the read position, empty past the end, and moves on by one |
| OpenCtm.Context.WriteUInt | openctm.c:765 | a word write appends that word |
| OpenCtm.Context.WriteString | openctm.c:783 | a string write appends that string |
| OpenCtm.Context.UncompressRaw | openctm.c:676-678 | the RAW decoder is called once and reads only forward |
| OpenCtm.Context.UncompressMg1 | openctm.c:680-682 | the MG1 decoder is called once and reads only forward |
| OpenCtm.Context.UncompressMg2 | openctm.c:684-686 | the MG2 decoder is called once and reads only forward |
| OpenCtm.Context.CompressRaw | openctm.c:788-790 | the RAW encoder is called once and only appends |
| OpenCtm.Context.CompressMg1 | openctm.c:792-794 | the MG1 encoder is called once and only appends |
| OpenCtm.Context.CompressMg2 | openctm.c:796-798 | the MG2 encoder is called once and only appends |
| OpenCtm.Context.ReadPreamble | openctm.c:601-624 | the magic, version and tag reads stop after the first word that fails its check, store the method the tag names, and report whether all three passed |
| OpenCtm.Context.ReadTail | openctm.c:637-640 | the last four reads store the two map counts and the comment, return the flags, and move on by four |
| OpenCtm.Context.ReadHeader | openctm.c:601-640 | the reads, one at a time in source order, store the fields that `HeaderReads` gives, and return success exactly when the header is accepted, with its flags |
| OpenCtm.Context.BeginLoad | openctm.c:594-640 | the stream is bound, the old mesh freed and cleared, and the header fields are those `HeaderReads` gives from a cleared context |
| OpenCtm.Context.AllocateMesh | openctm.c:642-665 | no vertex array gives CTM_OUT_OF_MEMORY without clearing the mesh, so the context keeps the header's vertex, triangle and map counts with null arrays; a later failed malloc clears the mesh again with CTM_OUT_OF_MEMORY; success gives fresh arrays, with normals exactly when the flags ask for them |
| OpenCtm.Context.Decode | openctm.c:673-687 | the decoder of the context's method is called once |
| OpenCtm.Context.FinishLoad | openctm.c:642-687 | the allocations as in AllocateMesh, then one decoder call exactly when they all succeed |
| OpenCtm.Context.ImportCustom | openctm.c:594-687 | an Import-mode load leaves the context as `Loaded` says, frees what it owned, and calls the decoder exactly when the header is accepted and the mallocs succeed |
| OpenCtm.Context.LoadCustom | openctm.c:581-688 | the context afterwards is `Loaded` of the one before: Export mode is refused with CTM_INVALID_OPERATION and nothing else changes |
| OpenCtm.Context.Load | openctm.c:550-576 | Export mode is refused; a file that cannot be opened gives CTM_FILE_ERROR and nothing else changes; otherwise as LoadCustom on the file's contents |
| OpenCtm.Context.WriteHeader | openctm.c:763-783 | the header writes append exactly `EncodeHeader` of the context's header |
| OpenCtm.Context.Encode | openctm.c:786-799 | the encoder of the context's method is called once and keeps what was written before |
| OpenCtm.Context.SaveCustom | openctm.c:733-800 | Import mode is refused; a missing mesh gives CTM_INVALID_MESH with nothing written; otherwise the stream starts with the encoded header and one encoder call follows |
| OpenCtm.Context.SaveMesh | openctm.c:754-799 | once the mesh check has passed, the stream starts with `EncodeHeader` of the context's header and one encoder call follows |
| OpenCtm.Context.Save | openctm.c:702-728 | Import mode is refused; a file that cannot be opened gives CTM_FILE_ERROR; otherwise as SaveCustom on an empty file |
| OpenCtm.NoDoubleFree | openctm.c:60-89 | none of the arrays `_ctmClearMesh` frees, the mesh arrays and the map value arrays, has been freed before |
| OpenCtm.QueryError | openctm.c:133-144 | a null handle gives CTM_INVALID_CONTEXT; otherwise the pending error is returned and cleared |
| OpenCtm.QueryErrorTwice | openctm.c:133-144 | two queries in a row return the pending error and then CTM_NO_ERROR |
| OpenCtm.FreeContext | openctm.c:114-128 | a null handle is ignored; otherwise the mesh is cleared and freed, the comment released and the context ended |
| OpenCtm.NewExporter | openctm.c:284-306 | a fresh Export context after a method and a comment are set holds that method (MG1 when the code is unknown) and that comment |
| OpenCtm.SaveDefined | openctm.c:733-800 | a mesh defined and saved by a fresh Export context produces a stream whose header reads back with the method, counts, normals flag and comment set |
| OpenCtm.LoadedImporter | openctm.c:581-688 | a fresh Import context loading a stream with an accepted header, every malloc succeeding, holds that header's method, counts, comment and normals |
| OpenCtm.SaveThenLoad | openctm.c:581-688 | what one context saves, a fresh Import context loads back with the same counts, normals flag, comment and method |

## Left out

- I/O: the read and write callbacks, `fopen`, `fread`, `fwrite` and `fclose` are not modelled. A stream is the token sequence it delivers, and whether `fopen` succeeds is a parameter.
- Byte order and byte layout of `_ctmStreamReadUINT` and `_ctmStreamReadSTRING` are not part of this model. The stream functions (`stream.c`) are not part of this model either; their contracts are taken from how `openctm.c` uses them.
- ReadUInt: a short read, or a token of the other kind, yields 0, and ReadString then yields the empty string. What the real stream functions return in that case is not part of this model.
- The numeric values in `openctm.h` (errors, properties, method codes) are not part of this model. Those constants in `CtmTypes` are distinct placeholders, and no proof depends on their values. The FOURCC words are the four ASCII bytes packed little-endian. `internal.h`, which defines `FOURCC` and `_CTM_FORMAT_VERSION`, is not part of this model; the format version 1 in `CtmTypes` is a placeholder, and no proof depends on its value.
- WriteUInt: `ctmSaveCustom` writes the magic word and the method tag as four raw bytes (`_ctmStreamWrite`), while `ctmLoadCustom` reads them back as one word (`_ctmStreamReadUINT`). The model writes each as the word token the read returns. That the bytes written read back as that `FOURCC` word depends on the packing of `FOURCC` in `internal.h` and the byte order of `_ctmStreamReadUINT` in `stream.c`, which are not part of this model; for these two words the header round trip holds by that identification.
- The compression backends (`_ctmUncompressMesh_*`, `_ctmCompressMesh_*`) are not part of this model. Each is a method with a contract only: it is called once and logged, a decoder reads forward and an encoder appends. What they write into the arrays is not modelled.
- VertexPrecision, TexCoordPrecision, AttribPrecision: a precision is a real, so NaN is not modelled; the source's test `aPrecision <= 0.0` lets NaN through and stores it.
- VertexPrecisionRel: floating point, `sqrt` and NaN are not modelled. The length of an edge is a parameter, and sums are exact reals. The method requires that every index slot and vertex it reads lies inside the arrays; the source reads out of bounds otherwise.
- Null handles: only `ctmError` (QueryError) and `ctmFreeContext` (FreeContext) take a possibly null handle. Every other API function returns at once on a null handle; the class methods leave that path out.
- The `malloc` in `ctmNewContext` is not checked in the source; the constructor always succeeds. The multiplications `count * sizeof(...) * 3` passed to `malloc` are not modelled: whether each malloc succeeds is a parameter (`Allocation`).
- FreeContext: the release of the context itself is modelled by the ghost flag `live`, since Dafny has no `free`.
- The texture-map and attribute-map allocations of `ctmLoadCustom`, `ctmAddTexMap`, `ctmAddAttribMap`, and the bodies of `ctmTexCoordPrecision` and `ctmAttribPrecision` are FIXME stubs in the source, and are modelled as such.
- FileComment: a comment is a Dafny `string`, not a NUL-terminated byte string. The source keeps a comment's characters up to the first NUL (`strlen`), so `"\0x"` stores no comment there but `Some("\0x")` in the model; character encoding is not modelled either.
- `ReadPreamble`, `ReadTail`, `ReadHeader`, `BeginLoad`, `AllocateMesh`, `Decode`, `FinishLoad`, `ImportCustom`, `WriteHeader`, `SaveMesh` and `Encode` are not separate functions in the source. They are consecutive parts of `ctmLoadCustom` and `ctmSaveCustom`, split out so that each part is proved on its own.
- GetFloatArray: the map lists are sequences of entries, not linked nodes, so aliasing between nodes is not modelled. Its contract is stated for any lists, but since `Valid()` keeps both lists empty in Import mode, only the branches that find no map are reachable from a valid Import context.

## Findings

| source | as written | input that shows it | evidently intended | confidence | as-written member | corrected member |
|---|---|---|---|---|---|---|
| openctm.c:42-54 | the loop of `_ctmFreeMapList` saves `map->mNext` in `nextMap` and frees `map`, but never assigns `nextMap` to `map` | any context whose texture-map or attribute-map list has one node, freed by `_ctmClearMesh`: the loop stays on the head node, reads and frees it again on the second pass after freeing it on the first, and does not end | `map = nextMap;` at the end of each pass, so that each node is freed once and the loop ends at the null link | high; not executed (the lists are always empty in this version, because `ctmAddTexMap` and `ctmAddAttribMap` are stubs and `ctmLoadCustom` allocates no maps) | CtmMaps.AsWrittenNeverExits | OpenCtm.Context.FreeMapList |
