/** The fixed limits of the TRegex engine. Several of them exist because other
    parts of the engine store indices in narrow Java integers: trace-finder result
    indices in a `byte` (with 255 meaning "no result"), parse-tree, NFA and DFA
    node indices in a `short`, capture-group boundary indices and the result sets
    of one DFA transition in `byte`s read back unsigned. The class's static initializer asserts
    those ceilings; `StaticInitializerAssertionsHold` discharges them and the
    other lemmas state what they buy. */
module TRegexOptions {
  import opened JavaTypes

  const TRegexEnableTraceFinder: bool := true
  const TRegexTraceFinderMaxNumberOfResults: JInt := 254
  /** The unsigned byte value a trace-finder state stores for "no result". */
  const TraceFinderNoResult: int := 255
  const TRegexEnableNodeSplitter: bool := false
  const TRegexMaxDFASizeAfterNodeSplitting: JInt := 4_000
  const TRegexRangeToBitSetConversionThreshold: JInt := 3
  const TRegexMaxParseTreeSize: JInt := 4_000
  const TRegexMaxNFASize: JInt := 3_500
  const TRegexMaxNumberOfASTSuccessorsInOneASTStep: JInt := SHORT_MAX
  const TRegexMaxDFASize: JInt := 2_400
  const RegexMaxCacheSize: JInt := 1_000
  const TRegexMaxCountedRepetition: JInt := 40
  const TRegexMaxNumberOfCaptureGroups: JInt := 127
  const TRegexMaxNumberOfNFAStatesInOneDFATransition: JInt := 255

  /** The eight assertions of the static initializer. */
  predicate StaticInitializerAssertions() {
    && TRegexTraceFinderMaxNumberOfResults <= 254
    && TRegexMaxParseTreeSize <= SHORT_MAX
    && TRegexMaxNFASize <= SHORT_MAX
    && TRegexMaxDFASize <= SHORT_MAX
    && TRegexMaxDFASizeAfterNodeSplitting <= SHORT_MAX
    && TRegexMaxNumberOfCaptureGroups <= 127
    && TRegexMaxNumberOfNFAStatesInOneDFATransition <= 255
    && TRegexRangeToBitSetConversionThreshold > 1
  }

  lemma StaticInitializerAssertionsHold()
    ensures StaticInitializerAssertions()
  {
  }

  /** Every trace-finder result index survives being stored in a `byte` and read
      back unsigned, and none of them is stored as the "no result" byte. */
  lemma TraceFinderResultIndicesFitInByte()
    ensures forall i | 0 <= i < TRegexTraceFinderMaxNumberOfResults ::
              FitsInUnsignedByte(i) && ToByte(i) != ToByte(TraceFinderNoResult)
    ensures FitsInUnsignedByte(TraceFinderNoResult)
  {
    forall i | 0 <= i < TRegexTraceFinderMaxNumberOfResults
      ensures FitsInUnsignedByte(i) && ToByte(i) != ToByte(TraceFinderNoResult)
    {
      FitsInUnsignedByteRange(i);
      FitsInUnsignedByteRange(TraceFinderNoResult);
    }
    FitsInUnsignedByteRange(TraceFinderNoResult);
  }

  /** Every parse-tree, NFA and DFA node index below its limit, also after node
      splitting, fits in a `short`. */
  lemma NodeIndicesFitInShort()
    ensures forall i | 0 <= i < TRegexMaxParseTreeSize :: FitsInShort(i)
    ensures forall i | 0 <= i < TRegexMaxNFASize :: FitsInShort(i)
    ensures forall i | 0 <= i < TRegexMaxDFASize :: FitsInShort(i)
    ensures forall i | 0 <= i < TRegexMaxDFASizeAfterNodeSplitting :: FitsInShort(i)
  {
    // The parse-tree limit is the largest of the four, so its range covers the others.
    forall i | 0 <= i < TRegexMaxParseTreeSize ensures FitsInShort(i) {
      FitsInShortRange(i);
    }
  }

  /** The successor cap of one AST step is the largest count a `short` holds. */
  lemma ASTSuccessorCapIsShortMax()
    ensures FitsInShort(TRegexMaxNumberOfASTSuccessorsInOneASTStep)
    ensures !FitsInShort(TRegexMaxNumberOfASTSuccessorsInOneASTStep + 1)
  {
    FitsInShortRange(TRegexMaxNumberOfASTSuccessorsInOneASTStep);
    FitsInShortRange(TRegexMaxNumberOfASTSuccessorsInOneASTStep + 1);
  }

  /** Each capture group has two boundaries, so there are twice as many boundary
      indices as groups. With the cap at 127 every one of them survives being
      stored in a `byte` and read back unsigned. The largest, 253, does not fit
      a signed `byte`, so the unsigned read-back is needed. */
  lemma CaptureGroupBoundaryIndicesFitInByte()
    ensures forall b | 0 <= b < 2 * TRegexMaxNumberOfCaptureGroups :: FitsInUnsignedByte(b)
    ensures !FitsInByte(2 * TRegexMaxNumberOfCaptureGroups - 1)
  {
    forall b | 0 <= b < 2 * TRegexMaxNumberOfCaptureGroups ensures FitsInUnsignedByte(b) {
      FitsInUnsignedByteRange(b);
    }
    FitsInByteRange(2 * TRegexMaxNumberOfCaptureGroups - 1);
  }

  /** Every index of a result set tracked in one DFA transition survives being
      stored in a `byte` and read back unsigned. */
  lemma TransitionResultSetIndicesFitInByte()
    ensures forall i | 0 <= i < TRegexMaxNumberOfNFAStatesInOneDFATransition :: FitsInUnsignedByte(i)
  {
    forall i | 0 <= i < TRegexMaxNumberOfNFAStatesInOneDFATransition ensures FitsInUnsignedByte(i) {
      FitsInUnsignedByteRange(i);
    }
  }
}
