/** An immutable pack of bytes with bounds-checked byte and bit access,
    offset-aware byte-wise OR and AND, existential OR and AND queries over an
    overlap window, and slicing. */
module BitPacks {
  import opened Bytes

  /** The one exception the pack raises. */
  datatype Error = IndexError

  datatype Result<T> = Ok(value: T) | Err(error: Error)

  function Min(x: int, y: int): (m: int) { if x <= y then x else y }

  datatype BitPack = BitPack(data: seq<byte>) {

    /** Construction from raw bytes: the pack holds exactly those bytes. */
    static function FromBytes(raw: seq<byte>): (p: BitPack)
      ensures p.Len() == |raw|
      ensures forall i :: 0 <= i < |raw| ==> p.ByteAt(i) == Ok(raw[i])
    {
      BitPack(raw)
    }

    /** The number of bytes held: every index below it is readable and it
        is the first non-negative index that `ByteAt` rejects. */
    function Len(): (n: nat)
      ensures forall i :: 0 <= i < n ==> ByteAt(i).Ok?
      ensures ByteAt(n).Err?
    {
      |data|
    }

    /** Byte access with the host sequence's indexing: a negative index
        counts from the end, anything outside `-Len() .. Len()` is an
        index error. */
    function ByteAt(index: int): (r: Result<byte>)
      ensures r.Ok? <==> -|data| <= index < |data|
      ensures 0 <= index < |data| ==> r == Ok(data[index])
      ensures -|data| <= index < 0 ==> r == Ok(data[|data| + index])
    {
      if 0 <= index < |data| then Ok(data[index])
      else if -|data| <= index < 0 then Ok(data[|data| + index])
      else Err(IndexError)
    }

    /** Two-argument bit access: bit `bitIndex` of byte `index`, counting
        0 as the most significant bit. */
    function BitAtPair(index: int, bitIndex: nat): (r: Result<bool>)
      requires bitIndex < 8
      ensures r.Ok? <==> ByteAt(index).Ok?
      ensures r.Ok? ==> r.value == ByteBits(ByteAt(index).value)[bitIndex]
    {
      match ByteAt(index)
      case Err(e) => Err(e)
      case Ok(b) => Ok(b & (0x80 >> bitIndex) != 0)
    }

    /** One-argument bit access: the pack read as one big-endian bit stream.
        Floor division and a non-negative remainder derive the byte and the
        bit, so a negative position counts from the end as well. */
    function BitAt(position: int): (r: Result<bool>)
      ensures r.Ok? <==> -8 * |data| <= position < 8 * |data|
    {
      BitAtPair(position / 8, position % 8)
    }

    /** Every in-range position reads the bit stream of the pack's bytes. */
    lemma BitAtStream(position: int)
      requires 0 <= position < 8 * |data|
      ensures BitAt(position) == Ok(Bits(data)[position])
    {
      BitsAt(data, position);
    }

    /** The value `bit_or` (for `BitwiseOr`) or `bit_and` (for `BitwiseAnd`)
        produces: byte `i` of the result combines byte `index + i` of this
        pack with byte `i` of `pack`. The explicit guard of the source is
        weaker than this failure condition; the rest of the overruns fail
        in the loop, and an empty `pack` never fails. */
    function Combined(op: Op, pack: BitPack, index: nat): (r: Result<BitPack>)
      ensures r.Err? <==> |pack.data| > 0 && index + |pack.data| > |data|
      ensures r.Ok? ==> |r.value.data| == |pack.data|
      ensures r.Ok? ==> forall i :: 0 <= i < |pack.data| ==>
                  r.value.data[i] == Apply(op, data[index + i], pack.data[i])
    {
      if |pack.data| == 0 then Ok(BitPack([]))
      else if index + |pack.data| > |data| then Err(IndexError)
      else Ok(BitPack(Zip(op, data[index..index + |pack.data|], pack.data)))
    }

    /** The guard-then-loop shared by `bit_or` and `bit_and`. */
    method Combine(op: Op, pack: BitPack, index: nat) returns (r: Result<BitPack>)
      ensures r == Combined(op, pack, index)
    {
      if |pack.data| > index + |data| {
        return Err(IndexError);
      }
      var result: seq<byte> := [];
      for i := 0 to |pack.data|
        invariant i == 0 || index + i <= |data|
        invariant |result| == i
        invariant forall k :: 0 <= k < i ==> result[k] == Apply(op, data[index + k], pack.data[k])
      {
        var b := ByteAt(index + i);
        if b.Err? {
          return Err(b.error);
        }
        result := result + [Apply(op, b.value, pack.data[i])];
      }
      r := Ok(BitPack(result));
      assert r.value.data == Combined(op, pack, index).value.data;
    }

    method BitOr(pack: BitPack, index: nat) returns (r: Result<BitPack>)
      ensures r == Combined(BitwiseOr, pack, index)
    {
      r := Combine(BitwiseOr, pack, index);
    }

    /** The `|` operator: `bit_or` at offset 0. */
    method OrOperator(pack: BitPack) returns (r: Result<BitPack>)
      ensures r == Combined(BitwiseOr, pack, 0)
    {
      r := BitOr(pack, 0);
    }

    method BitAnd(pack: BitPack, index: nat) returns (r: Result<BitPack>)
      ensures r == Combined(BitwiseAnd, pack, index)
    {
      r := Combine(BitwiseAnd, pack, index);
    }

    /** The `&` operator: `bit_and` at offset 0. */
    method AndOperator(pack: BitPack) returns (r: Result<BitPack>)
      ensures r == Combined(BitwiseAnd, pack, 0)
    {
      r := BitAnd(pack, 0);
    }

    /** True when some byte pair of the overlap window combines to a
        non-zero byte. */
    predicate AnyNonzero(op: Op, pack: BitPack, index: nat)
      requires index + |pack.data| <= |data|
    {
      exists i :: 0 <= i < |pack.data| && Apply(op, data[index + i], pack.data[i]) != 0
    }

    /** The answer of `bool_or`: an empty `pack` answers true first, then an
        overrun answers false, then the window is searched. */
    function OrQuery(pack: BitPack, index: nat): (b: bool)
    {
      if |pack.data| == 0 then true
      else if index + |pack.data| > |data| then false
      else AnyNonzero(BitwiseOr, pack, index)
    }

    /** The answer of `bool_and`: an empty `pack` answers true first, then an
        overrun is an index error, then the window is searched. The source
        falls off the end of its loop and returns None when the search
        fails; that falsy value is `Ok(false)` here. */
    function AndQuery(pack: BitPack, index: nat): (r: Result<bool>)
    {
      if |pack.data| == 0 then Ok(true)
      else if index + |pack.data| > |data| then Err(IndexError)
      else Ok(AnyNonzero(BitwiseAnd, pack, index))
    }

    method BoolOr(pack: BitPack, index: nat) returns (r: bool)
      ensures r == OrQuery(pack, index)
    {
      if |pack.data| == 0 {
        return true;
      }
      if index + |pack.data| > |data| {
        return false;
      }
      for i := 0 to |pack.data|
        invariant forall k :: 0 <= k < i ==> Apply(BitwiseOr, data[index + k], pack.data[k]) == 0
      {
        if ByteAt(index + i).value | pack.data[i] != 0 {
          return true;
        }
      }
      return false;
    }

    method BoolAnd(pack: BitPack, index: nat) returns (r: Result<bool>)
      ensures r == AndQuery(pack, index)
    {
      if |pack.data| == 0 {
        return Ok(true);
      }
      if index + |pack.data| > |data| {
        return Err(IndexError);
      }
      for i := 0 to |pack.data|
        invariant forall k :: 0 <= k < i ==> Apply(BitwiseAnd, data[index + k], pack.data[k]) == 0
      {
        if ByteAt(index + i).value & pack.data[i] != 0 {
          return Ok(true);
        }
      }
      return Ok(false);
    }

    /** Slicing `self[lo:hi]` with non-negative bounds: both bounds are
        clamped to the length, and a reversed range is empty. */
    function Slice(lo: nat, hi: nat): (r: BitPack)
      ensures |r.data| == if Min(lo, |data|) <= Min(hi, |data|)
                          then Min(hi, |data|) - Min(lo, |data|) else 0
      ensures forall i :: 0 <= i < |r.data| ==> r.data[i] == data[Min(lo, |data|) + i]
    {
      var a := Min(lo, |data|);
      var b := Min(hi, |data|);
      if a <= b then BitPack(data[a..b]) else BitPack([])
    }
  }
}
