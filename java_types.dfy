/** Java's fixed-width integer types and the machine arithmetic the modelled code
    relies on: narrowing casts to `byte` and `short`, reading a `byte` back as an
    unsigned value (`b & 0xff`), and addition of unsigned 64-bit words
    (`UnsignedWord.add`). Word subtraction is a specification helper: it states
    what a wrapping addition can be undone by. */
module JavaTypes {

  const BYTE_MIN: int := -0x80
  const BYTE_MAX: int := 0x7f
  /** `Short.MIN_VALUE` and `Short.MAX_VALUE`. */
  const SHORT_MIN: int := -0x8000
  const SHORT_MAX: int := 0x7fff
  const INT_MIN: int := -0x8000_0000
  const INT_MAX: int := 0x7fff_ffff
  const LONG_MIN: int := -0x8000_0000_0000_0000
  const LONG_MAX: int := 0x7fff_ffff_ffff_ffff
  /** Number of distinct values of a 64-bit machine word. */
  const WORD_MODULUS: int := 0x1_0000_0000_0000_0000

  type JByte = b: int | BYTE_MIN <= b <= BYTE_MAX
  type JShort = s: int | SHORT_MIN <= s <= SHORT_MAX
  type JInt = i: int | INT_MIN <= i <= INT_MAX
  type JLong = l: int | LONG_MIN <= l <= LONG_MAX
  /** An `UnsignedWord` or a `CodePointer`: 64 bits read as an unsigned number. */
  type Word = w: int | 0 <= w < WORD_MODULUS
  type JString = seq<char>

  /** Java's `(byte) i`: keeps the low 8 bits, read in two's complement. */
  function ToByte(i: int): (b: JByte)
    ensures (i - b) % 0x100 == 0
  {
    var low := i % 0x100;
    if low <= BYTE_MAX then low else low - 0x100
  }

  /** Java's `(short) i`: keeps the low 16 bits, read in two's complement. */
  function ToShort(i: int): (s: JShort)
    ensures (i - s) % 0x1_0000 == 0
  {
    var low := i % 0x1_0000;
    if low <= SHORT_MAX then low else low - 0x1_0000
  }

  /** Java's `b & 0xff`: the stored byte read back as an unsigned number. */
  function UnsignedByte(b: JByte): (r: int)
    ensures 0 <= r <= 0xff
    ensures (r - b) % 0x100 == 0
  {
    if b < 0 then b + 0x100 else b
  }

  /** Storing `i` in a signed `byte` loses nothing. */
  predicate FitsInByte(i: int) {
    ToByte(i) == i
  }

  /** Storing `i` in a `short` loses nothing. */
  predicate FitsInShort(i: int) {
    ToShort(i) == i
  }

  /** Storing `i` in a `byte` and reading it back with `& 0xff` gives `i` again. */
  predicate FitsInUnsignedByte(i: int) {
    UnsignedByte(ToByte(i)) == i
  }

  lemma FitsInByteRange(i: int)
    ensures FitsInByte(i) <==> BYTE_MIN <= i <= BYTE_MAX
  {
  }

  lemma FitsInShortRange(i: int)
    ensures FitsInShort(i) <==> SHORT_MIN <= i <= SHORT_MAX
  {
  }

  lemma FitsInUnsignedByteRange(i: int)
    ensures FitsInUnsignedByte(i) <==> 0 <= i <= 0xff
  {
  }

  /** `UnsignedWord.add`: the sum modulo 2^64. */
  function WordAdd(a: Word, b: Word): (r: Word)
    ensures a + b < WORD_MODULUS ==> r == a + b
    ensures a + b >= WORD_MODULUS ==> r == a + b - WORD_MODULUS
  {
    (a + b) % WORD_MODULUS
  }

  /** The difference modulo 2^64; used only to state the meaning of `WordAdd`'s results. */
  function WordSub(a: Word, b: Word): (r: Word)
    ensures b <= a ==> r == a - b
    ensures a < b ==> r == a - b + WORD_MODULUS
  {
    (a - b) % WORD_MODULUS
  }

  /** Subtracting the first operand undoes a wrapping addition. */
  lemma WordSubUndoesAdd(a: Word, b: Word)
    ensures WordSub(WordAdd(a, b), a) == b
  {
  }
}
