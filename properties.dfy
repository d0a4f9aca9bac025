/** Properties that relate the operations of a BitPack to one another and
    the concrete behaviour the repository's tests expect. */
module BitPackProperties {
  import opened Bytes
  import opened BitPacks

  /** A pack's length is zero exactly when it was built from no bytes. */
  lemma EmptyIffNoBytes(raw: seq<byte>)
    ensures BitPack.FromBytes(raw).Len() == 0 <==> raw == []
  {
  }

  /** The two-argument bit access reads bit `8 * index + bitIndex` of the
      pack's bit stream. */
  lemma BitAtPairStream(p: BitPack, index: nat, bitIndex: nat)
    requires index < |p.data| && bitIndex < 8
    ensures p.BitAtPair(index, bitIndex) == Ok(Bits(p.data)[8 * index + bitIndex])
  {
    var q := 8 * index + bitIndex;
    assert q / 8 == index && q % 8 == bitIndex;
    BitsAt(p.data, q);
  }

  /** A negative bit position counts from the end of the bit stream. */
  lemma BitAtFromEnd(p: BitPack, position: int)
    requires -8 * |p.data| <= position < 0
    ensures p.BitAt(position) == Ok(Bits(p.data)[8 * |p.data| + position])
  {
    var q := 8 * |p.data| + position;
    assert q / 8 == |p.data| + position / 8 && q % 8 == position % 8;
    BitsAt(p.data, q);
  }

  /** For packs of equal length the `|` and `&` operators do not depend on
      the order of their operands. */
  lemma CombinedCommutes(op: Op, a: BitPack, b: BitPack)
    requires |a.data| == |b.data|
    ensures a.Combined(op, b, 0) == b.Combined(op, a, 0)
  {
    if |a.data| > 0 {
      var x, y := a.Combined(op, b, 0).value.data, b.Combined(op, a, 0).value.data;
      assert x == y;
    }
  }

  /** Combining at an offset is combining at offset 0 with the slice of the
      base pack that starts at the offset, on every input, overruns included. */
  lemma CombinedIsAlignedSlice(op: Op, p: BitPack, pack: BitPack, index: nat)
    ensures p.Combined(op, pack, index) == p.Slice(index, index + |pack.data|).Combined(op, pack, 0)
  {
    var w := p.Slice(index, index + |pack.data|);
    if p.Combined(op, pack, index).Ok? && |pack.data| > 0 {
      var x, y := p.Combined(op, pack, index).value.data, w.Combined(op, pack, 0).value.data;
      assert |x| == |y|;
      forall i | 0 <= i < |x| ensures x[i] == y[i] {
        assert w.data[i] == p.data[index + i];
      }
      assert x == y;
    }
  }

  /** `bool_or` answers whether `bit_or` yields a pack with a non-zero
      byte, except that an empty operand answers true. */
  lemma OrQueryIsNonzeroBitOr(p: BitPack, pack: BitPack, index: nat)
    ensures p.OrQuery(pack, index) <==>
            |pack.data| == 0 ||
            (p.Combined(BitwiseOr, pack, index).Ok? &&
             HasNonzero(p.Combined(BitwiseOr, pack, index).value.data))
  {
  }

  /** `bool_and` on a non-empty operand fails exactly where `bit_and`
      fails, and otherwise answers whether `bit_and` yields a non-zero byte. */
  lemma AndQueryIsNonzeroBitAnd(p: BitPack, pack: BitPack, index: nat)
    requires |pack.data| > 0
    ensures p.AndQuery(pack, index).Err? <==> p.Combined(BitwiseAnd, pack, index).Err?
    ensures p.AndQuery(pack, index).Ok? ==>
            (p.AndQuery(pack, index).value <==>
             HasNonzero(p.Combined(BitwiseAnd, pack, index).value.data))
  {
  }

  /** A common set bit is a set bit of either byte, so whenever `bool_and`
      answers true on a window that fits, `bool_or` does too. */
  lemma AndQueryImpliesOrQuery(p: BitPack, pack: BitPack, index: nat)
    requires p.AndQuery(pack, index) == Ok(true)
    ensures p.OrQuery(pack, index)
  {
  }

  /** Where the window runs past the end of a non-empty operand, `bool_or`
      answers false while `bool_and`, `bit_or` and `bit_and` fail. */
  lemma OverrunAsymmetry(p: BitPack, pack: BitPack, index: nat)
    requires |pack.data| > 0 && index + |pack.data| > |p.data|
    ensures !p.OrQuery(pack, index)
    ensures p.AndQuery(pack, index) == Err(IndexError)
    ensures p.Combined(BitwiseOr, pack, index) == Err(IndexError)
    ensures p.Combined(BitwiseAnd, pack, index) == Err(IndexError)
  {
  }

  /** An empty operand: both queries answer true and both combinations give
      an empty pack, whatever the base pack and the offset. */
  lemma EmptyOperand(p: BitPack, index: nat)
    ensures p.OrQuery(BitPack([]), index)
    ensures p.AndQuery(BitPack([]), index) == Ok(true)
    ensures p.Combined(BitwiseOr, BitPack([]), index) == Ok(BitPack([]))
    ensures p.Combined(BitwiseAnd, BitPack([]), index) == Ok(BitPack([]))
  {
  }

  /** Adjacent slices concatenate to the slice that spans them. */
  lemma SliceConcat(p: BitPack, lo: nat, mid: nat, hi: nat)
    requires lo <= mid <= hi
    ensures p.Slice(lo, mid).data + p.Slice(mid, hi).data == p.Slice(lo, hi).data
  {
  }

  /** The slice over the whole length holds the same bytes as the pack. */
  lemma SliceWhole(p: BitPack)
    ensures p.Slice(0, p.Len()).data == p.data
  {
  }

  /** The scenarios of the repository's tests for byte access. */
  lemma ByteAtExamples()
    ensures BitPack([0x00, 0x01, 0x02, 0x03, 0xff, 0xab]).ByteAt(0) == Ok(0x00)
    ensures BitPack([0x00, 0x01, 0x02, 0x03, 0xff, 0xab]).ByteAt(1) == Ok(0x01)
    ensures BitPack([0x00, 0x01, 0x02, 0x03, 0xff, 0xab]).ByteAt(2) == Ok(0x02)
    ensures BitPack([0x00, 0x01, 0x02, 0x03, 0xff, 0xab]).ByteAt(3) == Ok(0x03)
    ensures BitPack([0x00, 0x01, 0x02, 0x03, 0xff, 0xab]).ByteAt(4) == Ok(0xff)
    ensures BitPack([0x00, 0x01, 0x02, 0x03, 0xff, 0xab]).ByteAt(5) == Ok(0xab)
    ensures BitPack([0x00]).ByteAt(1) == Err(IndexError)
  {
  }

  /** The scenarios of the repository's tests for bit access, in both forms. */
  lemma BitAtExamples()
    ensures BitPack([0x00, 0xf0]).BitAt(0) == Ok(false)
    ensures BitPack([0x00, 0xf0]).BitAtPair(0, 0) == Ok(false)
    ensures BitPack([0x00, 0xf0]).BitAt(8) == Ok(true)
    ensures BitPack([0x00, 0xf0]).BitAtPair(1, 0) == Ok(true)
    ensures BitPack([0x00, 0xf0]).BitAt(12) == Ok(false)
    ensures BitPack([0x00, 0xf0]).BitAtPair(1, 4) == Ok(false)
  {
  }

  /** The scenarios of the repository's tests for `|` and `&`, both ways round. */
  lemma OperatorExamples()
    ensures BitPack([0x00, 0xff, 0xab]).Combined(BitwiseOr, BitPack([0x01, 0x00, 0xb5]), 0)
            == Ok(BitPack([0x01, 0xff, 0xbf]))
    ensures BitPack([0x01, 0x00, 0xb5]).Combined(BitwiseOr, BitPack([0x00, 0xff, 0xab]), 0)
            == Ok(BitPack([0x01, 0xff, 0xbf]))
    ensures BitPack([0x00, 0xff, 0xab]).Combined(BitwiseAnd, BitPack([0xff, 0x8b, 0xb5]), 0)
            == Ok(BitPack([0x00, 0x8b, 0xa1]))
    ensures BitPack([0xff, 0x8b, 0xb5]).Combined(BitwiseAnd, BitPack([0x00, 0xff, 0xab]), 0)
            == Ok(BitPack([0x00, 0x8b, 0xa1]))
  {
    var r := BitPack([0x00, 0xff, 0xab]).Combined(BitwiseOr, BitPack([0x01, 0x00, 0xb5]), 0);
    assert r.value.data == [0x01, 0xff, 0xbf];
    CombinedCommutes(BitwiseOr, BitPack([0x00, 0xff, 0xab]), BitPack([0x01, 0x00, 0xb5]));
    var s := BitPack([0x00, 0xff, 0xab]).Combined(BitwiseAnd, BitPack([0xff, 0x8b, 0xb5]), 0);
    assert s.value.data == [0x00, 0x8b, 0xa1];
    CombinedCommutes(BitwiseAnd, BitPack([0x00, 0xff, 0xab]), BitPack([0xff, 0x8b, 0xb5]));
  }

  /** The overrun scenarios of the repository's tests for `bit_or` and
      `bit_and`: a longer operand, and a two-byte operand at offset 2 of a
      three-byte pack, which passes the explicit guard and fails in the loop. */
  lemma CombineOverrunExamples()
    ensures BitPack([0x00, 0x01, 0x02]).Combined(BitwiseOr, BitPack([0x00, 0x01, 0x02, 0x03]), 0) == Err(IndexError)
    ensures BitPack([0x00, 0x01, 0x02]).Combined(BitwiseOr, BitPack([0x00, 0x01]), 2) == Err(IndexError)
    ensures BitPack([0x00, 0x01, 0x02]).Combined(BitwiseAnd, BitPack([0x00, 0x01, 0x02, 0x03]), 0) == Err(IndexError)
    ensures BitPack([0x00, 0x01, 0x02]).Combined(BitwiseAnd, BitPack([0x00, 0x01]), 2) == Err(IndexError)
  {
  }

  /** The overrun scenarios of the repository's tests for `bool_or`: an
      empty pack, a longer operand, and a window that runs past the end all
      answer false. */
  lemma OrQueryOverrunExamples()
    ensures !BitPack([]).OrQuery(BitPack([0x00, 0x01, 0x02]), 0)
    ensures !BitPack([]).OrQuery(BitPack([0x00, 0x01, 0x02]), 1)
    ensures !BitPack([0x00, 0x01, 0x02]).OrQuery(BitPack([0x00, 0x01, 0x02, 0x04]), 0)
    ensures !BitPack([0x00, 0x01, 0x02]).OrQuery(BitPack([0x00, 0x01, 0x02]), 1)
  {
  }

  /** The overrun scenarios of the repository's tests for `bool_and`: an
      empty pack, a longer operand, and a window that runs past the end all
      raise an index error. */
  lemma AndQueryOverrunExamples()
    ensures BitPack([]).AndQuery(BitPack([0x00, 0x01, 0x02]), 0) == Err(IndexError)
    ensures BitPack([]).AndQuery(BitPack([0x00, 0x01, 0x02]), 1) == Err(IndexError)
    ensures BitPack([0x00, 0x01, 0x02]).AndQuery(BitPack([0x00, 0x01, 0x02, 0x03]), 0) == Err(IndexError)
    ensures BitPack([0x00, 0x01, 0x02]).AndQuery(BitPack([0x01, 0x02, 0x03]), 1) == Err(IndexError)
  {
  }

  /** The window scenarios of the repository's tests for the queries. */
  lemma QueryExamples()
    ensures BitPack([0x00, 0x00, 0x00]).OrQuery(BitPack([0x00, 0x01, 0x02]), 0)
    ensures BitPack([0x00, 0x01, 0x02]).OrQuery(BitPack([0x00, 0x00, 0x00]), 0)
    ensures BitPack([0x00, 0x00, 0x01, 0x00]).OrQuery(BitPack([0x00, 0x00]), 1)
    ensures !BitPack([0x00, 0x00, 0x00]).OrQuery(BitPack([0x00, 0x00, 0x00]), 0)
    ensures BitPack([0x00, 0x01, 0x80]).AndQuery(BitPack([0x00, 0x00, 0xf0]), 0) == Ok(true)
    ensures BitPack([0x00, 0x00, 0xf0]).AndQuery(BitPack([0x00, 0x01, 0x80]), 0) == Ok(true)
    ensures BitPack([0x00, 0x01, 0x02, 0x03]).AndQuery(BitPack([0x01, 0x02, 0x03]), 1) == Ok(true)
    ensures BitPack([0x00, 0x01, 0x02]).OrQuery(BitPack([]), 0)
    ensures BitPack([0x00, 0x01, 0x02]).OrQuery(BitPack([]), 1)
    ensures BitPack([0x00, 0x01, 0x02]).AndQuery(BitPack([]), 0) == Ok(true)
    ensures BitPack([0x00, 0x01, 0x02]).AndQuery(BitPack([]), 1) == Ok(true)
    ensures BitPack([]).OrQuery(BitPack([]), 0)
  {
    assert Apply(BitwiseOr, [0x00, 0x00, 0x00][1], [0x00, 0x01, 0x02][1]) != 0;
    assert Apply(BitwiseOr, [0x00, 0x01, 0x02][1], [0x00, 0x00, 0x00][1]) != 0;
    assert Apply(BitwiseOr, [0x00, 0x00, 0x01, 0x00][1 + 1], [0x00, 0x00][1]) != 0;
    assert Apply(BitwiseAnd, [0x00, 0x01, 0x80][2], [0x00, 0x00, 0xf0][2]) != 0;
    assert Apply(BitwiseAnd, [0x00, 0x00, 0xf0][2], [0x00, 0x01, 0x80][2]) != 0;
    assert Apply(BitwiseAnd, [0x00, 0x01, 0x02, 0x03][1 + 0], [0x01, 0x02, 0x03][0]) != 0;
  }
}
