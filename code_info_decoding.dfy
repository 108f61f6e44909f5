/** The collaborators `ImageCodeInfo` forwards its queries to. `CodeInfoAccessor`
    and `CodeInfoDecoder` are not part of this model: each is a record of total
    functions supplied by the caller, so a query's result is whatever the decoder
    makes of the arguments it is handed and of nothing else. The types of the
    frame-info reader, of a decoded frame and of the query-result object are left
    as type parameters. */
module CodeInfoDecoding {
  import opened JavaTypes

  /** An element of `frameInfoObjectConstants`: a reference into the image heap. */
  datatype ObjectRef = ObjectRef(address: Word)

  /** An element of `frameInfoSourceClasses`. */
  datatype ClassRef = ClassRef(name: JString)

  /** What a `PinnedArray` over an image-heap array shows: `Null` for a null
      array, otherwise the array's current elements. */
  datatype ArrayView<T> = Null | Elements(elements: seq<T>)

  /** `pa(array)`: a transparent view of `a`. */
  function Pinned<T>(a: array?<T>): (v: ArrayView<T>)
    reads a
    ensures v.Null? <==> a == null
  {
    if a == null then Null else Elements(a[..])
  }

  /** The static methods of `CodeInfoAccessor` that `ImageCodeInfo` calls. The
      frame-info reader is updated by the decoder; here the new reader state is
      returned beside the result. */
  datatype CodeInfoAccessor<!Reader, Frame> = CodeInfoAccessor(
    contains: (Word, Word, Word) -> bool,
    relativeIP: (Word, Word, Word) -> JLong,
    absoluteIP: (Word, JLong) -> Word,
    initFrameInfoReader: (ArrayView<JByte>, ArrayView<JByte>, ArrayView<JByte>, JLong, Reader) -> (JLong, Reader),
    nextFrameInfo: (ArrayView<JByte>, ArrayView<JString>, ArrayView<ObjectRef>, ArrayView<ClassRef>,
                    ArrayView<JString>, JLong, Reader, bool) -> (Frame, Reader))

  /** The static methods of `CodeInfoDecoder` that `ImageCodeInfo` calls. The
      query-result object the source fills in place is passed in and the filled
      one returned. Arguments keep the source's order: encodings, index,
      frame-info encodings, frame names, object constants, source classes, source
      method names, reference-map encoding. */
  datatype CodeInfoDecoder<!Query> = CodeInfoDecoder(
    lookupCodeInfo: (ArrayView<JByte>, ArrayView<JByte>, ArrayView<JByte>, ArrayView<JString>,
                     ArrayView<ObjectRef>, ArrayView<ClassRef>, ArrayView<JString>, ArrayView<JByte>,
                     JLong, Query) -> Query,
    lookupDeoptimizationEntrypoint: (ArrayView<JByte>, ArrayView<JByte>, ArrayView<JByte>, ArrayView<JString>,
                                     ArrayView<ObjectRef>, ArrayView<ClassRef>, ArrayView<JString>, ArrayView<JByte>,
                                     JLong, JLong, Query) -> (JLong, Query),
    lookupTotalFrameSize: (ArrayView<JByte>, ArrayView<JByte>, JLong) -> JLong,
    lookupExceptionOffset: (ArrayView<JByte>, ArrayView<JByte>, JLong) -> JLong,
    lookupReferenceMapIndex: (ArrayView<JByte>, ArrayView<JByte>, JLong) -> JLong)
}
