# ImageCodeInfo and TRegexOptions in Dafny

This project models two pieces of GraalVM.

**`ImageCodeInfo`** is the facade over the compiled-code metadata of a native image. It is used in two phases:

- **Build time.** `setCodeLocation` installs the code range (`codeStart`, `codeSize`). `setMetadata` installs eight arrays: four byte buffers (the code-info index, the code-info encodings, the reference-map encoding and the frame-info encodings) and four constant pools.
- **Run time.** Every query only reads those fields. A few compute their answer themselves: the code end, the name, and the memory-walker region info. The others hand a fixed subset of the fields to `CodeInfoAccessor` or `CodeInfoDecoder`.

**`TRegexOptions`** is the block of fixed limits of the TRegex regular-expression engine, together with the static initializer that asserts their ceilings.

Files:

- `java_types.dfy` (module `JavaTypes`): Java's `byte`, `short`, `int` and `long` ranges and 64-bit unsigned words. It also holds the narrowing casts `(byte)` and `(short)`, the read-back `b & 0xff`, and wrapping word addition.
- `code_info_decoding.dfy` (module `CodeInfoDecoding`): the decoder classes, which are not part of this model. Each is a record of total functions that the caller supplies. `Pinned` is the transparent pinned-array view: `Null` for a null array, otherwise the array's elements.
- `image_code_info.dfy` (module `ImageCode`): the class `ImageCodeInfo`, which has the ten fields, the two installer methods and one function per query. It also holds `MemoryWalkerAccessImpl`, a value-level account of installer calls (`Install`, `InstallAll`), and the lemmas.
- `tregex_options.dfy` (module `TRegexOptions`): the constants, the static assertions and what they guarantee.

Each query is a function with a field-by-field `reads` clause (`reads this`codeInfoIndex, codeInfoIndex`). So the verifier itself checks which fields and which array contents a query may depend on. A function cannot assign a field, so no query changes the store, and repeating a query on the same store with the same arguments gives the same answer. The two-store lemmas below state these dependencies as equalities.

## Model

| member | source | states |
|---|---|---|
| `ImageCode.ImageCodeInfo.constructor` | substratevm/src/com.oracle.svm.core/src/com/oracle/svm/core/code/ImageCodeInfo.java:49-63 | a new store has a zero code range and all eight arrays null (Java's field defaults) |
| `ImageCode.ImageCodeInfo.SetCodeLocation` | substratevm/src/com.oracle.svm.core/src/com/oracle/svm/core/code/ImageCodeInfo.java:78-81 | afterwards `GetCodeStart` and `GetCodeSize` return the given values and `GetCodeEnd` is their wrapping sum; only `codeStart` and `codeSize` may change, so the eight arrays are unchanged |
| `ImageCode.ImageCodeInfo.SetMetadata` | substratevm/src/com.oracle.svm.core/src/com/oracle/svm/core/code/ImageCodeInfo.java:139-150 | each of the eight given arrays is stored in its own field, with no swapping; `GetReferenceMapEncoding` then returns the pinned view of exactly the given reference-map array; the code range is unchanged; a second call overwrites the first |
| `ImageCode.ImageCodeInfo.GetCodeEnd` | substratevm/src/com.oracle.svm.core/src/com/oracle/svm/core/code/ImageCodeInfo.java:106-108 | the end lies `codeSize` above `codeStart` modulo 2^64; it is below `codeStart` exactly when `codeStart + codeSize` overflows a word; without overflow it is the plain sum |
| `JavaTypes.WordAdd` | substratevm/src/com.oracle.svm.core/src/com/oracle/svm/core/code/ImageCodeInfo.java:107 | `UnsignedWord.add`: the plain sum when it fits in 64 bits, otherwise the sum minus 2^64 |
| `ImageCode.LastCodeLocationWins` | substratevm/src/com.oracle.svm.core/src/com/oracle/svm/core/code/ImageCodeInfo.java:78-81 | after any sequence of installer calls, the code range is the one from the last `setCodeLocation`, or the initial range if there was none |
| `ImageCode.LastMetadataWins` | substratevm/src/com.oracle.svm.core/src/com/oracle/svm/core/code/ImageCodeInfo.java:139-150 | after any sequence of installer calls, the eight arrays are those from the last `setMetadata`, or the initial ones if there was none |
| `ImageCode.InstallersCommute` | substratevm/src/com.oracle.svm.core/src/com/oracle/svm/core/code/ImageCodeInfo.java:78-150 | `setCodeLocation` and `setMetadata` write disjoint fields, so calling them in either order gives the same state |
| `ImageCode.MemoryWalkerAgreesWithCodeInfo` | substratevm/src/com.oracle.svm.core/src/com/oracle/svm/core/code/ImageCodeInfo.java:185-207 | `getStart` and `getSize` report the installed `codeStart` and `codeSize`, the same values as `getCodeStart` and `getCodeSize`; `getRegion` and `getName` both give `"image code"` |
| `ImageCode.AddressQueriesDependOnlyOnCodeRange` | substratevm/src/com.oracle.svm.core/src/com/oracle/svm/core/code/ImageCodeInfo.java:110-123 | `absoluteIP` depends only on `codeStart` and the relative address; `contains` and `relativeIP` depend only on `codeStart`, `codeSize` and `ip` |
| `ImageCode.FrameInfoReaderDependsOnRelativeIP` | substratevm/src/com.oracle.svm.core/src/com/oracle/svm/core/code/ImageCodeInfo.java:125-128 | `initFrameInfoReader` passes the decoder `relativeIP(ip)`, not `ip`, and only the encodings, index and frame-info encodings: two stores that agree on those three arrays give the same result for any two addresses with equal relative addresses |
| `ImageCode.NextFrameInfoIgnoresIndexAndReferenceMap` | substratevm/src/com.oracle.svm.core/src/com/oracle/svm/core/code/ImageCodeInfo.java:130-136 | `nextFrameInfo` depends only on the encodings and the four constant pools; it ignores the code range, the index, the frame-info encodings and the reference-map encoding |
| `ImageCode.HeaderLookupsDependOnlyOnIndexAndEncodings` | substratevm/src/com.oracle.svm.core/src/com/oracle/svm/core/code/ImageCodeInfo.java:164-182 | `lookupTotalFrameSize`, `lookupExceptionOffset` and `lookupReferenceMapIndex` depend only on the encodings, the index and `ip`; changing any other field cannot change their result |
| `ImageCode.FullLookupsIgnoreCodeLocation` | substratevm/src/com.oracle.svm.core/src/com/oracle/svm/core/code/ImageCodeInfo.java:152-162 | `lookupCodeInfo` and `lookupDeoptimizationEntrypoint` depend on the eight arrays and their arguments, but not on the code range |
| `CodeInfoDecoding.Pinned` | substratevm/src/com.oracle.svm.core/src/com/oracle/svm/core/code/ImageCodeInfo.java:69-75 | the pinned view of an array is null exactly when the array is null |
| `JavaTypes.ToByte` | regex/src/com.oracle.truffle.regex/src/com/oracle/truffle/regex/tregex/TRegexOptions.java:48-53 | `(byte) i` is a signed byte congruent to `i` modulo 256 |
| `JavaTypes.UnsignedByte` | regex/src/com.oracle.truffle.regex/src/com/oracle/truffle/regex/tregex/TRegexOptions.java:48-53 | `b & 0xff` lies in 0..255 and is congruent to `b` modulo 256 |
| `JavaTypes.ToShort` | regex/src/com.oracle.truffle.regex/src/com/oracle/truffle/regex/tregex/TRegexOptions.java:81-96 | `(short) i` is a short congruent to `i` modulo 65536 |
| `JavaTypes.FitsInUnsignedByteRange` | regex/src/com.oracle.truffle.regex/src/com/oracle/truffle/regex/tregex/TRegexOptions.java:135-141 | storing `i` in a byte and reading it back with `& 0xff` gives `i` again if and only if 0 <= i <= 255 |
| `JavaTypes.FitsInShortRange` | regex/src/com.oracle.truffle.regex/src/com/oracle/truffle/regex/tregex/TRegexOptions.java:108-115 | storing `i` in a short loses nothing if and only if `Short.MIN_VALUE <= i <= Short.MAX_VALUE` |
| `JavaTypes.FitsInByteRange` | regex/src/com.oracle.truffle.regex/src/com/oracle/truffle/regex/tregex/TRegexOptions.java:128-133 | storing `i` in a signed byte loses nothing if and only if -128 <= i <= 127 |
| `TRegexOptions.StaticInitializerAssertionsHold` | regex/src/com.oracle.truffle.regex/src/com/oracle/truffle/regex/tregex/TRegexOptions.java:143-152 | all eight assertions of the static initializer hold for the constants as declared |
| `TRegexOptions.TraceFinderResultIndicesFitInByte` | regex/src/com.oracle.truffle.regex/src/com/oracle/truffle/regex/tregex/TRegexOptions.java:48-53 | every result index below the trace-finder limit survives a round trip through a byte, and none is stored as the reserved "no result" byte 255 |
| `TRegexOptions.NodeIndicesFitInShort` | regex/src/com.oracle.truffle.regex/src/com/oracle/truffle/regex/tregex/TRegexOptions.java:61-115 | every parse-tree, NFA and DFA node index below its limit fits in a short, and so does every DFA node index below the limit after node splitting |
| `TRegexOptions.ASTSuccessorCapIsShortMax` | regex/src/com.oracle.truffle.regex/src/com/oracle/truffle/regex/tregex/TRegexOptions.java:98-106 | the cap on AST successors in one AST step is exactly the largest value a short holds |
| `TRegexOptions.CaptureGroupBoundaryIndicesFitInByte` | regex/src/com.oracle.truffle.regex/src/com/oracle/truffle/regex/tregex/TRegexOptions.java:128-133 | each of the 127 groups has two boundaries, and every boundary index below 2 x 127 survives being stored in a byte and read back unsigned; the largest, 253, does not fit a signed byte |
| `TRegexOptions.TransitionResultSetIndicesFitInByte` | regex/src/com.oracle.truffle.regex/src/com/oracle/truffle/regex/tregex/TRegexOptions.java:135-141 | every index of a result set tracked in one DFA transition fits in a byte read back unsigned |

## Left out

- `CodeInfoAccessor`, `CodeInfoDecoder`, `FrameInfoDecoder` and `ReusableTypeReader` are not part of this model. The decoders are records of functions supplied by the caller. The reader, the decoded frame and the query-result object are type parameters. So the model states which fields each query passes on, but not what the decoder computes from them.
- `initFrameInfoReader`, `nextFrameInfo`, `lookupCodeInfo` and `lookupDeoptimizationEntrypoint` update their reader or `CodeInfoQueryResult` argument in place. The model passes that argument's state in and returns the new state as a value, so aliasing of those arguments is not captured.
- The frame-info result and value allocators of `nextFrameInfo` are not modelled, because they only supply objects to the decoder.
- `Pinned` models `PinnedArrays.fromImageHeap` as a view of the array's contents at the time of the call. `SetMetadata` takes plain arrays, so `PinnedArrays.getHostedArray` is not modelled. Pinning and the image heap are not modelled either.
- `walkImageCode` and `ImageCodeInfoMemoryWalkerAccessFeature` are left out. They register a process-wide singleton and call back into a visitor.
- The `accessor` field and `getAccessor` are left out, because `ImageCodeInfoAccessor` is not part of this model.
- `@Uninterruptible`, `@UnknownObjectField`, `@UnknownPrimitiveField` and `@Platforms(HOSTED_ONLY)` are left out. They govern allocation, preemption and image building, not behaviour. So `setCodeLocation` is not restricted to build time.
- The buffers are meant to be set exactly once before any read. The code has no guard against a second call, so the model follows the code: each installer call overwrites, and `LastCodeLocationWins` and `LastMetadataWins` state what the last call leaves.
- The regex components that consume the limits (`DFAGenerator`, `NFAGenerator`, `DFANodeSplit`, `TraceFinderDFAStateNode`, the matchers) are not part of this model. Only the constants and the bounds they guarantee are modelled, not the bail-outs.
- `HotSpotGraalManagement.java` (JMX bridging to the host process over JNI) is not part of this model.
