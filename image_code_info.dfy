/** `ImageCodeInfo`: the facade over the compiled-code metadata of the native
    image. At image build time `SetCodeLocation` installs the code range and
    `SetMetadata` installs the eight metadata arrays; at run time every query
    only reads those fields and either computes a small value itself or hands a
    fixed subset of them to `CodeInfoAccessor` / `CodeInfoDecoder`.

    Each query is a function whose `reads` clause names, field by field, the part
    of the object it may depend on, so the verifier itself checks which buffers
    can influence which answer; the lemmas at the end of the module state the
    same facts about two stores. */
module ImageCode {
  import opened JavaTypes
  import opened CodeInfoDecoding

  /** The name every image code unit reports. */
  const CODE_INFO_NAME: JString := "image code"

  /** The eight arrays `setMetadata` installs, as references. */
  datatype Metadata = Metadata(
    codeInfoIndex: array?<JByte>,
    codeInfoEncodings: array?<JByte>,
    referenceMapEncoding: array?<JByte>,
    frameInfoEncodings: array?<JByte>,
    frameInfoObjectConstants: array?<ObjectRef>,
    frameInfoSourceClasses: array?<ClassRef>,
    frameInfoSourceMethodNames: array?<JString>,
    frameInfoNames: array?<JString>)

  /** The abstract value of an `ImageCodeInfo`: its ten fields. */
  datatype Snapshot = Snapshot(codeStart: Word, codeSize: Word, metadata: Metadata)

  /** One call of an installer. */
  datatype Installation =
    | CodeLocation(start: Word, size: Word)
    | InstallMetadata(arrays: Metadata)

  /** The effect of one installer call on the fields: it overwrites its own
      fields, whatever they held, and nothing else. */
  function Install(s: Snapshot, op: Installation): Snapshot {
    match op
    case CodeLocation(start, size) => s.(codeStart := start, codeSize := size)
    case InstallMetadata(arrays) => s.(metadata := arrays)
  }

  /** The effect of a sequence of installer calls, first to last. */
  function InstallAll(s: Snapshot, ops: seq<Installation>): Snapshot
    decreases |ops|
  {
    if ops == [] then s else InstallAll(Install(s, ops[0]), ops[1..])
  }

  /** `ops[k]` is the last `setCodeLocation` call in `ops`. */
  predicate IsLastCodeLocation(ops: seq<Installation>, k: int) {
    0 <= k < |ops| && ops[k].CodeLocation? &&
    forall j | k < j < |ops| :: !ops[j].CodeLocation?
  }

  /** `ops[k]` is the last `setMetadata` call in `ops`. */
  predicate IsLastMetadata(ops: seq<Installation>, k: int) {
    0 <= k < |ops| && ops[k].InstallMetadata? &&
    forall j | k < j < |ops| :: !ops[j].InstallMetadata?
  }

  /** Neither installer guards against a second call: after any sequence of
      calls the code range is the one given by the last `setCodeLocation`, or
      the initial one if there was none. */
  lemma {:induction false} LastCodeLocationWins(s: Snapshot, ops: seq<Installation>)
    ensures (forall j | 0 <= j < |ops| :: !ops[j].CodeLocation?) ==>
              InstallAll(s, ops).codeStart == s.codeStart && InstallAll(s, ops).codeSize == s.codeSize
    ensures forall k | IsLastCodeLocation(ops, k) ::
              InstallAll(s, ops).codeStart == ops[k].start && InstallAll(s, ops).codeSize == ops[k].size
    decreases |ops|
  {
    if ops != [] {
      var rest := ops[1..];
      LastCodeLocationWins(Install(s, ops[0]), rest);
      forall k | IsLastCodeLocation(ops, k)
        ensures InstallAll(s, ops).codeStart == ops[k].start && InstallAll(s, ops).codeSize == ops[k].size
      {
        if k > 0 {
          assert IsLastCodeLocation(rest, k - 1);
        } else {
          assert forall j | 0 <= j < |rest| :: !rest[j].CodeLocation? by {
            forall j | 0 <= j < |rest| ensures !rest[j].CodeLocation? {
              assert rest[j] == ops[j + 1];
            }
          }
        }
      }
      if forall j | 0 <= j < |ops| :: !ops[j].CodeLocation? {
        assert !ops[0].CodeLocation?;
      }
    }
  }

  /** After any sequence of calls the eight arrays are exactly those of the
      last `setMetadata`, or the initial ones if there was none. */
  lemma {:induction false} LastMetadataWins(s: Snapshot, ops: seq<Installation>)
    ensures (forall j | 0 <= j < |ops| :: !ops[j].InstallMetadata?) ==>
              InstallAll(s, ops).metadata == s.metadata
    ensures forall k | IsLastMetadata(ops, k) :: InstallAll(s, ops).metadata == ops[k].arrays
    decreases |ops|
  {
    if ops != [] {
      var rest := ops[1..];
      LastMetadataWins(Install(s, ops[0]), rest);
      forall k | IsLastMetadata(ops, k)
        ensures InstallAll(s, ops).metadata == ops[k].arrays
      {
        if k > 0 {
          assert IsLastMetadata(rest, k - 1);
        } else {
          assert forall j | 0 <= j < |rest| :: !rest[j].InstallMetadata? by {
            forall j | 0 <= j < |rest| ensures !rest[j].InstallMetadata? {
              assert rest[j] == ops[j + 1];
            }
          }
        }
      }
      if forall j | 0 <= j < |ops| :: !ops[j].InstallMetadata? {
        assert !ops[0].InstallMetadata?;
      }
    }
  }

  /** The two installers write disjoint fields, so their order does not matter. */
  lemma InstallersCommute(s: Snapshot, start: Word, size: Word, arrays: Metadata)
    ensures Install(Install(s, CodeLocation(start, size)), InstallMetadata(arrays))
         == Install(Install(s, InstallMetadata(arrays)), CodeLocation(start, size))
  {
  }

  class ImageCodeInfo {
    var codeStart: Word
    var codeSize: Word

    var codeInfoIndex: array?<JByte>
    var codeInfoEncodings: array?<JByte>
    var referenceMapEncoding: array?<JByte>
    var frameInfoEncodings: array?<JByte>
    var frameInfoObjectConstants: array?<ObjectRef>
    var frameInfoSourceClasses: array?<ClassRef>
    var frameInfoSourceMethodNames: array?<JString>
    var frameInfoNames: array?<JString>

    /** The fields start out as Java's defaults: a zero code range and no arrays. */
    constructor ()
      ensures State() == Snapshot(0, 0, Metadata(null, null, null, null, null, null, null, null))
    {
      codeStart, codeSize := 0, 0;
      codeInfoIndex, codeInfoEncodings, referenceMapEncoding, frameInfoEncodings := null, null, null, null;
      frameInfoObjectConstants, frameInfoSourceClasses := null, null;
      frameInfoSourceMethodNames, frameInfoNames := null, null;
    }

    ghost function State(): Snapshot
      reads this
    {
      Snapshot(codeStart, codeSize,
               Metadata(codeInfoIndex, codeInfoEncodings, referenceMapEncoding, frameInfoEncodings,
                        frameInfoObjectConstants, frameInfoSourceClasses, frameInfoSourceMethodNames,
                        frameInfoNames))
    }

    method SetCodeLocation(codeStart: Word, codeSize: Word)
      modifies this`codeStart, this`codeSize
      ensures GetCodeStart() == codeStart && GetCodeSize() == codeSize
      ensures GetCodeEnd() == WordAdd(codeStart, codeSize)
      ensures State().metadata == old(State().metadata)
      ensures State() == Install(old(State()), CodeLocation(codeStart, codeSize))
    {
      this.codeStart := codeStart;
      this.codeSize := codeSize;
    }

    function GetName(): JString {
      CODE_INFO_NAME
    }

    function GetCodeStart(): Word
      reads this`codeStart
    {
      codeStart
    }

    function GetCodeSize(): Word
      reads this`codeSize
    {
      codeSize
    }

    /** The first address after the code, in unsigned word arithmetic: it lies
        `codeSize` above `codeStart` modulo 2^64, and it is below `codeStart`
        exactly when the range wraps around the end of the address space. */
    function GetCodeEnd(): (end: Word)
      reads this`codeStart, this`codeSize
      ensures WordSub(end, codeStart) == codeSize
      ensures end < codeStart <==> codeStart + codeSize >= WORD_MODULUS
      ensures codeStart + codeSize < WORD_MODULUS ==> end - codeStart == codeSize
    {
      WordAdd(codeStart, codeSize)
    }

    function Contains<Reader, Frame>(accessor: CodeInfoAccessor<Reader, Frame>, ip: Word): bool
      reads this`codeStart, this`codeSize
    {
      accessor.contains(codeStart, codeSize, ip)
    }

    function RelativeIP<Reader, Frame>(accessor: CodeInfoAccessor<Reader, Frame>, ip: Word): JLong
      reads this`codeStart, this`codeSize
    {
      accessor.relativeIP(codeStart, codeSize, ip)
    }

    function AbsoluteIP<Reader, Frame>(accessor: CodeInfoAccessor<Reader, Frame>, relativeIP: JLong): Word
      reads this`codeStart
    {
      accessor.absoluteIP(codeStart, relativeIP)
    }

    /** Positions `reader` for `ip`; returns the entry offset and the positioned reader. */
    function InitFrameInfoReader<Reader, Frame>(accessor: CodeInfoAccessor<Reader, Frame>, ip: Word, reader: Reader): (JLong, Reader)
      reads this`codeStart, this`codeSize
      reads this`codeInfoEncodings, this`codeInfoIndex, this`frameInfoEncodings
      reads codeInfoEncodings, codeInfoIndex, frameInfoEncodings
    {
      accessor.initFrameInfoReader(Pinned(codeInfoEncodings), Pinned(codeInfoIndex), Pinned(frameInfoEncodings),
                                   RelativeIP(accessor, ip), reader)
    }

    /** Decodes the next frame; returns it and the advanced reader. */
    function NextFrameInfo<Reader, Frame>(accessor: CodeInfoAccessor<Reader, Frame>, entryOffset: JLong, reader: Reader,
                                          fetchFirstFrame: bool): (Frame, Reader)
      reads this`codeInfoEncodings, this`frameInfoNames, this`frameInfoObjectConstants
      reads this`frameInfoSourceClasses, this`frameInfoSourceMethodNames
      reads codeInfoEncodings, frameInfoNames, frameInfoObjectConstants, frameInfoSourceClasses, frameInfoSourceMethodNames
    {
      accessor.nextFrameInfo(Pinned(codeInfoEncodings), Pinned(frameInfoNames), Pinned(frameInfoObjectConstants),
                             Pinned(frameInfoSourceClasses), Pinned(frameInfoSourceMethodNames),
                             entryOffset, reader, fetchFirstFrame)
    }

    /** Stores each given array in its own field; the code range is left alone
        and a second call simply overwrites the first. */
    method SetMetadata(codeInfoIndex: array?<JByte>, codeInfoEncodings: array?<JByte>,
                       referenceMapEncoding: array?<JByte>, frameInfoEncodings: array?<JByte>,
                       frameInfoObjectConstants: array?<ObjectRef>, frameInfoSourceClasses: array?<ClassRef>,
                       frameInfoSourceMethodNames: array?<JString>, frameInfoNames: array?<JString>)
      modifies this`codeInfoIndex, this`codeInfoEncodings, this`referenceMapEncoding, this`frameInfoEncodings
      modifies this`frameInfoObjectConstants, this`frameInfoSourceClasses
      modifies this`frameInfoSourceMethodNames, this`frameInfoNames
      ensures this.codeInfoIndex == codeInfoIndex && this.codeInfoEncodings == codeInfoEncodings
      ensures this.referenceMapEncoding == referenceMapEncoding && this.frameInfoEncodings == frameInfoEncodings
      ensures this.frameInfoObjectConstants == frameInfoObjectConstants
      ensures this.frameInfoSourceClasses == frameInfoSourceClasses
      ensures this.frameInfoSourceMethodNames == frameInfoSourceMethodNames
      ensures this.frameInfoNames == frameInfoNames
      ensures GetReferenceMapEncoding() == Pinned(referenceMapEncoding)
      ensures GetCodeStart() == old(GetCodeStart()) && GetCodeSize() == old(GetCodeSize())
      ensures State() == Install(old(State()), InstallMetadata(Metadata(
                codeInfoIndex, codeInfoEncodings, referenceMapEncoding, frameInfoEncodings,
                frameInfoObjectConstants, frameInfoSourceClasses, frameInfoSourceMethodNames, frameInfoNames)))
    {
      this.codeInfoIndex := codeInfoIndex;
      this.codeInfoEncodings := codeInfoEncodings;
      this.referenceMapEncoding := referenceMapEncoding;
      this.frameInfoEncodings := frameInfoEncodings;
      this.frameInfoObjectConstants := frameInfoObjectConstants;
      this.frameInfoSourceClasses := frameInfoSourceClasses;
      this.frameInfoSourceMethodNames := frameInfoSourceMethodNames;
      this.frameInfoNames := frameInfoNames;
    }

    /** Fills `codeInfo` for the relative address `ip` from all eight arrays. */
    function LookupCodeInfo<Query>(decoder: CodeInfoDecoder<Query>, ip: JLong, codeInfo: Query): Query
      reads this`codeInfoEncodings, this`codeInfoIndex, this`frameInfoEncodings, this`frameInfoNames
      reads this`frameInfoObjectConstants, this`frameInfoSourceClasses, this`frameInfoSourceMethodNames
      reads this`referenceMapEncoding
      reads codeInfoEncodings, codeInfoIndex, frameInfoEncodings, frameInfoNames
      reads frameInfoObjectConstants, frameInfoSourceClasses, frameInfoSourceMethodNames, referenceMapEncoding
    {
      decoder.lookupCodeInfo(Pinned(codeInfoEncodings), Pinned(codeInfoIndex), Pinned(frameInfoEncodings),
                             Pinned(frameInfoNames), Pinned(frameInfoObjectConstants), Pinned(frameInfoSourceClasses),
                             Pinned(frameInfoSourceMethodNames), Pinned(referenceMapEncoding), ip, codeInfo)
    }

    /** Searches for the deoptimization entry point of `methodId` at `encodedBci`;
        returns its offset and the filled `codeInfo`. */
    function LookupDeoptimizationEntrypoint<Query>(decoder: CodeInfoDecoder<Query>, methodId: JLong, encodedBci: JLong,
                                                   codeInfo: Query): (JLong, Query)
      reads this`codeInfoEncodings, this`codeInfoIndex, this`frameInfoEncodings, this`frameInfoNames
      reads this`frameInfoObjectConstants, this`frameInfoSourceClasses, this`frameInfoSourceMethodNames
      reads this`referenceMapEncoding
      reads codeInfoEncodings, codeInfoIndex, frameInfoEncodings, frameInfoNames
      reads frameInfoObjectConstants, frameInfoSourceClasses, frameInfoSourceMethodNames, referenceMapEncoding
    {
      decoder.lookupDeoptimizationEntrypoint(Pinned(codeInfoEncodings), Pinned(codeInfoIndex), Pinned(frameInfoEncodings),
                                             Pinned(frameInfoNames), Pinned(frameInfoObjectConstants),
                                             Pinned(frameInfoSourceClasses), Pinned(frameInfoSourceMethodNames),
                                             Pinned(referenceMapEncoding), methodId, encodedBci, codeInfo)
    }

    function LookupTotalFrameSize<Query>(decoder: CodeInfoDecoder<Query>, ip: JLong): JLong
      reads this`codeInfoEncodings, this`codeInfoIndex, codeInfoEncodings, codeInfoIndex
    {
      decoder.lookupTotalFrameSize(Pinned(codeInfoEncodings), Pinned(codeInfoIndex), ip)
    }

    function LookupExceptionOffset<Query>(decoder: CodeInfoDecoder<Query>, ip: JLong): JLong
      reads this`codeInfoEncodings, this`codeInfoIndex, codeInfoEncodings, codeInfoIndex
    {
      decoder.lookupExceptionOffset(Pinned(codeInfoEncodings), Pinned(codeInfoIndex), ip)
    }

    /** The pinned view of the reference-map array. */
    function GetReferenceMapEncoding(): ArrayView<JByte>
      reads this`referenceMapEncoding, referenceMapEncoding
    {
      Pinned(referenceMapEncoding)
    }

    function LookupReferenceMapIndex<Query>(decoder: CodeInfoDecoder<Query>, ip: JLong): JLong
      reads this`codeInfoEncodings, this`codeInfoIndex, codeInfoEncodings, codeInfoIndex
    {
      decoder.lookupReferenceMapIndex(Pinned(codeInfoEncodings), Pinned(codeInfoIndex), ip)
    }
  }

  /** How the memory walker sees an image code unit. */
  class MemoryWalkerAccessImpl {
    constructor () {
    }

    function GetStart(info: ImageCodeInfo): Word
      reads info`codeStart
    {
      info.GetCodeStart()
    }

    function GetSize(info: ImageCodeInfo): Word
      reads info`codeSize
    {
      info.GetCodeSize()
    }

    function GetRegion(info: ImageCodeInfo): JString {
      CODE_INFO_NAME
    }
  }

  /** The memory walker reports the installed code range and the unit's own name. */
  lemma MemoryWalkerAgreesWithCodeInfo(walker: MemoryWalkerAccessImpl, info: ImageCodeInfo)
    ensures walker.GetStart(info) == info.GetCodeStart() == info.State().codeStart
    ensures walker.GetSize(info) == info.GetCodeSize() == info.State().codeSize
    ensures walker.GetRegion(info) == info.GetName() == "image code"
  {
  }

  /** `contains` and `relativeIP` see only the code range and `ip`;
      `absoluteIP` sees only the code start and the relative address. */
  lemma AddressQueriesDependOnlyOnCodeRange<Reader, Frame>(a: ImageCodeInfo, b: ImageCodeInfo,
                                                         accessor: CodeInfoAccessor<Reader, Frame>, ip: Word, relativeIP: JLong)
    requires a.codeStart == b.codeStart
    ensures a.AbsoluteIP(accessor, relativeIP) == b.AbsoluteIP(accessor, relativeIP)
    ensures a.codeSize == b.codeSize ==>
              a.Contains(accessor, ip) == b.Contains(accessor, ip) &&
              a.RelativeIP(accessor, ip) == b.RelativeIP(accessor, ip)
  {
  }

  /** `initFrameInfoReader` hands the decoder the relative address, not `ip`
      itself, together with only the encodings, the index and the frame-info
      encodings: two stores that agree on those give the same reader for any two
      addresses with the same relative address. */
  lemma FrameInfoReaderDependsOnRelativeIP<Reader, Frame>(a: ImageCodeInfo, b: ImageCodeInfo,
                                                        accessor: CodeInfoAccessor<Reader, Frame>,
                                                        ipA: Word, ipB: Word, reader: Reader)
    requires a.RelativeIP(accessor, ipA) == b.RelativeIP(accessor, ipB)
    requires Pinned(a.codeInfoEncodings) == Pinned(b.codeInfoEncodings)
    requires Pinned(a.codeInfoIndex) == Pinned(b.codeInfoIndex)
    requires Pinned(a.frameInfoEncodings) == Pinned(b.frameInfoEncodings)
    ensures a.InitFrameInfoReader(accessor, ipA, reader) == b.InitFrameInfoReader(accessor, ipB, reader)
  {
  }

  /** `nextFrameInfo` never consults the code range, the index, the frame-info
      encodings or the reference-map encoding. */
  lemma NextFrameInfoIgnoresIndexAndReferenceMap<Reader, Frame>(a: ImageCodeInfo, b: ImageCodeInfo,
                                                              accessor: CodeInfoAccessor<Reader, Frame>,
                                                              entryOffset: JLong, reader: Reader, fetchFirstFrame: bool)
    requires Pinned(a.codeInfoEncodings) == Pinned(b.codeInfoEncodings)
    requires Pinned(a.frameInfoNames) == Pinned(b.frameInfoNames)
    requires Pinned(a.frameInfoObjectConstants) == Pinned(b.frameInfoObjectConstants)
    requires Pinned(a.frameInfoSourceClasses) == Pinned(b.frameInfoSourceClasses)
    requires Pinned(a.frameInfoSourceMethodNames) == Pinned(b.frameInfoSourceMethodNames)
    ensures a.NextFrameInfo(accessor, entryOffset, reader, fetchFirstFrame)
         == b.NextFrameInfo(accessor, entryOffset, reader, fetchFirstFrame)
  {
  }

  /** The three header lookups see only the encodings, the index and `ip`. */
  lemma HeaderLookupsDependOnlyOnIndexAndEncodings<Query>(a: ImageCodeInfo, b: ImageCodeInfo,
                                                         decoder: CodeInfoDecoder<Query>, ip: JLong)
    requires Pinned(a.codeInfoEncodings) == Pinned(b.codeInfoEncodings)
    requires Pinned(a.codeInfoIndex) == Pinned(b.codeInfoIndex)
    ensures a.LookupTotalFrameSize(decoder, ip) == b.LookupTotalFrameSize(decoder, ip)
    ensures a.LookupExceptionOffset(decoder, ip) == b.LookupExceptionOffset(decoder, ip)
    ensures a.LookupReferenceMapIndex(decoder, ip) == b.LookupReferenceMapIndex(decoder, ip)
  {
  }

  /** `lookupCodeInfo` and `lookupDeoptimizationEntrypoint` read all eight arrays
      but not the code range: their addresses are already relative. */
  lemma FullLookupsIgnoreCodeLocation<Query>(a: ImageCodeInfo, b: ImageCodeInfo, decoder: CodeInfoDecoder<Query>,
                                             ip: JLong, methodId: JLong, encodedBci: JLong, codeInfo: Query)
    requires Pinned(a.codeInfoIndex) == Pinned(b.codeInfoIndex)
    requires Pinned(a.codeInfoEncodings) == Pinned(b.codeInfoEncodings)
    requires Pinned(a.referenceMapEncoding) == Pinned(b.referenceMapEncoding)
    requires Pinned(a.frameInfoEncodings) == Pinned(b.frameInfoEncodings)
    requires Pinned(a.frameInfoObjectConstants) == Pinned(b.frameInfoObjectConstants)
    requires Pinned(a.frameInfoSourceClasses) == Pinned(b.frameInfoSourceClasses)
    requires Pinned(a.frameInfoSourceMethodNames) == Pinned(b.frameInfoSourceMethodNames)
    requires Pinned(a.frameInfoNames) == Pinned(b.frameInfoNames)
    ensures a.LookupCodeInfo(decoder, ip, codeInfo) == b.LookupCodeInfo(decoder, ip, codeInfo)
    ensures a.LookupDeoptimizationEntrypoint(decoder, methodId, encodedBci, codeInfo)
         == b.LookupDeoptimizationEntrypoint(decoder, methodId, encodedBci, codeInfo)
  {
  }
}
