# BitPack, modelled and proved in Dafny

`BitPack` is an immutable value wrapping a byte string. It offers
bounds-checked byte access, most-significant-bit-first bit access (by bit
position, or by byte and bit index), byte-wise OR and AND against a second
pack placed at an offset into the first (`bit_or`, `bit_and` and the `|`, `&`
operators), existential OR and AND queries over the same overlap window
(`bool_or`, `bool_and`), and slicing.

The model has three files:

- `bytes.dfy`, module `Bytes`: the byte type (`bv8`), the two operators, the
  byte-wise combination `Zip` of two equal-length byte strings, and the
  big-endian bit stream `Bits` of a byte string (bit `k` of a byte is the
  byte shifted right by `7 - k`, modulo 2).
- `bitpack.dfy`, module `BitPacks`: `datatype BitPack = BitPack(data: seq<byte>)`.
  The source never changes `data` after construction, so the pack is a value.
  The pure accessors are functions. `bit_or`/`bit_and` (through the shared
  guard-then-loop `Combine`) and `bool_or`/`bool_and` are methods with the
  source's loops. Each method is proved equal to a specification function:
  `Combined`, `OrQuery` or `AndQuery`. `IndexError` is the `Err` case of
  `Result`.
- `properties.dfy`, module `BitPackProperties`: lemmas that relate the
  operations to the bit stream, to slicing and to each other, and the
  scenarios of the repository's tests.

Notes on the behaviour of `src/bitpack.py` that the model follows:

- The explicit guard of `bit_or` and `bit_and` (src/bitpack.py:36, :66) is
  `len(pack) > index + len(self)`, weaker than the real failure condition.
  The remaining overruns raise from `byte_at` inside the loop
  (src/bitpack.py:41, :71). An empty `pack` therefore never fails, even at
  an offset past the end, and gives an empty pack. `Combined` states the net
  condition as `|pack| > 0 && index + |pack| > |self|`.
- `bool_and` answers true on an empty operand before any bounds test
  (src/bitpack.py:81-82), so it does so even when the pack itself is empty.
- When `bool_and` finds no common bit it falls off the end of its loop
  (src/bitpack.py:88-90) and returns `None`. That is the only falsy value it
  ever returns, and the model represents it as `Ok(false)`.
- Slicing (src/bitpack.py:93) uses Python's silent clamping of bounds, and so
  does `Slice`.
- `byte_at` indexes the byte string directly (src/bitpack.py:19), so a
  negative index counts from the end; `ByteAt` and both forms of bit access
  model that wrap-around.

## Model

| member | source | states |
|---|---|---|
| `BitPacks.BitPack.FromBytes` | src/bitpack.py:6-8 | a pack built from raw bytes has their count as its length and returns each of them, in order, from `ByteAt` |
| `BitPacks.BitPack.Len` | src/bitpack.py:31-32 | the length is the count of readable bytes: every index below it succeeds in `ByteAt` and the length itself is the first non-negative index that fails |
| `BitPackProperties.EmptyIffNoBytes` | src/bitpack.py:31-32 | the length is zero exactly when the pack was built from no bytes |
| `BitPacks.BitPack.ByteAt` | src/bitpack.py:18-19 | succeeds exactly for `-len <= index < len`; a non-negative index gives `data[index]`, and a negative one counts from the end; so a 1-byte pack fails at index 1 |
| `BitPacks.BitPack.BitAtPair` | src/bitpack.py:21-29 | two-argument form: fails exactly when `ByteAt(index)` fails; otherwise gives bit `bitIndex` of that byte, with bit 0 the most significant (the mask `0x80 >> bitIndex` agrees with shifting right by `7 - bitIndex`) |
| `BitPacks.BitPack.BitAt` | src/bitpack.py:21-29 | one-argument form: succeeds exactly for `-8*len <= position < 8*len`, the positions whose floor-divided byte index `ByteAt` accepts |
| `BitPacks.BitPack.BitAtStream` | src/bitpack.py:21-29 | every position `0 <= p < 8*len` reads bit `p` of the pack's big-endian bit stream |
| `BitPackProperties.BitAtPairStream` | src/bitpack.py:21-29 | the two-argument form at `(index, bitIndex)` reads bit `8*index + bitIndex` of the same bit stream, so both forms agree |
| `BitPackProperties.BitAtFromEnd` | src/bitpack.py:21-24 | a negative in-range position reads bit `8*len + position` of the stream, through floor division and a non-negative remainder |
| `Bytes.Zip` | src/bitpack.py:40-42 | the byte-wise combination of two equal-length strings has their length, and byte `k` is the operator applied to the two bytes `k` |
| `Bytes.Bits` | src/bitpack.py:21-24 | the bit stream of `n` bytes has `8*n` bits |
| `Bytes.BitsAt` | src/bitpack.py:23-24 | bit `p` of the stream is bit `p % 8` of byte `p / 8` |
| `BitPacks.BitPack.Combined` | src/bitpack.py:34-44 | the value of `bit_or`/`bit_and`: an index error exactly when `pack` is non-empty and `index + len(pack) > len(self)`; otherwise a new pack of length `len(pack)` whose byte `i` is `self[index+i]` combined with `pack[i]` |
| `BitPacks.BitPack.Combine` | src/bitpack.py:36-44 | the explicit guard followed by the loop that appends one combined byte per step, with `byte_at` failing past the end, gives exactly `Combined` |
| `BitPacks.BitPack.BitOr` | src/bitpack.py:34-44 | returns `Combined` with OR at the given offset |
| `BitPacks.BitPack.OrOperator` | src/bitpack.py:46-47 | the OR operator returns what `bit_or` at offset 0 returns |
| `BitPacks.BitPack.BitAnd` | src/bitpack.py:64-74 | returns `Combined` with AND at the given offset |
| `BitPacks.BitPack.AndOperator` | src/bitpack.py:76-77 | the AND operator returns what `bit_and` at offset 0 returns |
| `BitPacks.BitPack.BoolOr` | src/bitpack.py:49-62 | the early-exit scan answers `OrQuery`: true for an empty operand (even on an empty pack), then false for an overrun with no exception, then whether some byte pair ORs to non-zero |
| `BitPacks.BitPack.BoolAnd` | src/bitpack.py:79-90 | the early-exit scan answers `AndQuery`: true for an empty operand, then an index error for an overrun (an empty pack with a non-empty operand included), then whether some byte pair ANDs to non-zero, with the fall-through as false |
| `BitPacks.BitPack.Slice` | src/bitpack.py:92-93 | `self[lo:hi]` holds `hi' - lo'` bytes when `lo' <= hi'` and none otherwise, byte `i` being `data[lo' + i]`, where `lo'`, `hi'` are the bounds clamped to the length |
| `BitPackProperties.CombinedCommutes` | src/bitpack.py:46-77 | for packs of equal length, the OR operator (`__or__`, :46-47) and the AND operator (`__and__`, :76-77) give the same result whichever pack is on the left |
| `BitPackProperties.CombinedIsAlignedSlice` | src/bitpack.py:34-44 | combining at offset `index` equals combining at offset 0 with `self[index:index+len(pack)]`, overruns included |
| `BitPackProperties.OrQueryIsNonzeroBitOr` | src/bitpack.py:49-62 | `bool_or` is true exactly when the operand is empty or `bit_or` succeeds with a non-zero byte |
| `BitPackProperties.AndQueryIsNonzeroBitAnd` | src/bitpack.py:79-90 | on a non-empty operand `bool_and` fails exactly when `bit_and` fails, and otherwise is true exactly when `bit_and` yields a non-zero byte |
| `BitPackProperties.AndQueryImpliesOrQuery` | src/bitpack.py:49-90 | whenever `bool_and` answers true, `bool_or` answers true on the same operand and offset (`bool_and` at :79-90, `bool_or` at :49-62) |
| `BitPackProperties.OverrunAsymmetry` | src/bitpack.py:36-86 | when a non-empty operand overruns, `bool_or` is false (:55-56) while `bool_and` (:85-86), `bit_or` (:36-44) and `bit_and` (:66-74) all raise an index error |
| `BitPackProperties.EmptyOperand` | src/bitpack.py:34-82 | with an empty operand both queries answer true (:51-52, :81-82) and both combinations give an empty pack (:36-44, :66-74), for any base pack and offset |
| `BitPackProperties.SliceConcat` | src/bitpack.py:92-93 | for `lo <= mid <= hi`, `self[lo:mid]` followed by `self[mid:hi]` is `self[lo:hi]` |
| `BitPackProperties.SliceWhole` | src/bitpack.py:92-93 | `self[0:len(self)]` holds the same bytes as the pack |
| `BitPackProperties.ByteAtExamples` | tests/test_bitpack.py:41-61 | all six expected bytes of the pack `00 01 02 03 ff ab`, and the index error at index 1 of a one-byte pack |
| `BitPackProperties.BitAtExamples` | tests/test_bitpack.py:326-336 | for bytes `00 f0`: bit 0 and `(0,0)` are clear, bit 8 and `(1,0)` are set, bit 12 and `(1,4)` are clear |
| `BitPackProperties.OperatorExamples` | tests/test_bitpack.py:66-222 | `00 ff ab` OR `01 00 b5` is `01 ff bf` and `00 ff ab` AND `ff 8b b5` is `00 8b a1` (tests/test_bitpack.py:204-222), both ways round |
| `BitPackProperties.CombineOverrunExamples` | tests/test_bitpack.py:106-120 | a longer operand, and a two-byte operand at offset 2 of a three-byte pack, raise an index error for OR and, as tests/test_bitpack.py:244-258 expects, for AND |
| `BitPackProperties.OrQueryOverrunExamples` | tests/test_bitpack.py:168-189 | `bool_or` answers false, without raising, on an empty pack, for a longer operand and for a window past the end |
| `BitPackProperties.AndQueryOverrunExamples` | tests/test_bitpack.py:295-321 | `bool_and` raises an index error on an empty pack, for a longer operand and for a window past the end |
| `BitPackProperties.QueryExamples` | tests/test_bitpack.py:125-293 | the window and empty-operand scenarios of `bool_or` (true both ways for `00 00 00` with `00 01 02`, an offset window, all zeros, an empty operand at offsets 0 and 1, an empty pack with an empty operand), and the `bool_and` ones of tests/test_bitpack.py:263-293 (a common bit both ways round, an offset window, an empty operand at offsets 0 and 1) |

## Left out

- Base64 decoding on construction and `base64()` re-encoding (src/bitpack.py:12-13, 15-16): these are calls into Python's standard library (MIME base64 with 76-character lines), whose lenient decoder's behaviour is not visible in this code. Only the raw-bytes constructor path is modelled.
- The text-to-bytes step of the constructor (`raw_unicode_escape`, src/bitpack.py:10): a Python text encoding.
- `__getitem__` with an integer: Python gives an `int`, and the constructor then fails on it. Only slices are modelled.
- Slice bounds that are negative or omitted, and slice steps: `Slice` takes two non-negative bounds.
- Negative offsets to `bit_or`, `bit_and`, `bool_or` and `bool_and`: the offset is a `nat`. Python's wrap-around of negative indices is modelled only for `ByteAt`, `BitAtPair` and `BitAt`.
- `BitAtPair`: a `bitIndex` outside `0..7` is excluded by its precondition. In Python a negative shift raises `ValueError`, and a shift of 8 or more gives the mask 0.
- `BoolAnd`: the `None` that the source returns when no common bit is found is represented as `Ok(false)`.
- Building each result byte through `chr`/`bytes(..., 'raw_unicode_escape')` (src/bitpack.py:41, 71) is modelled as appending one byte to a sequence.
- The test runner itself. Its expected values appear only as the example lemmas.
