/**
 * The hand-rolled MessagePack subset decoder of msgpack/unmarshal.go.
 *
 * `token` dispatches on the first byte: the eight integer tags 0xcc..0xd3 are
 * decoded, every other tag with the high bit set is read as a fixmap (so the
 * map16/map32 tags 0xde/0xdf and also strings, arrays, bin, nil, bool are all
 * taken for maps), and a tag below 0x80 (positive fixints included) is refused.
 *
 * Go slices have a capacity as well as a length: `bb[:4]` only needs capacity 4,
 * while `bb[i]` and `bb[i:]` need length. Slicing from the front keeps
 * capacity minus length unchanged, so the decoder carries it as `spare`.
 */
module Msgpack {
  import opened Bytes
  import opened Wrappers

  // Tags of msgpack/consts.go.
  const Map15LengthMask: uint8 := 0x80
  const Map16: uint8 := 0xde
  const Map32: uint8 := 0xdf
  const Array15LengthMask: uint8 := 0x90
  const String31LengthMask: uint8 := 0xa0
  const Bin8: uint8 := 0xc4
  const TagUint8: uint8 := 0xcc
  const TagUint16: uint8 := 0xcd
  const TagUint32: uint8 := 0xce
  const TagUint64: uint8 := 0xcf
  const TagInt8: uint8 := 0xd0
  const TagInt16: uint8 := 0xd1
  const TagInt32: uint8 := 0xd2
  const TagInt64: uint8 := 0xd3

  // Keys of msgpack/consts.go used by the AUTH body.
  const KeyTuple: uint8 := 0x21
  const KeyUserName: uint8 := 0x23

  /** The Go dynamic type of a decoded integer. */
  datatype Kind = U8 | U16 | U32 | U64 | I8 | I16 | I32 | I64
  {
    /** Number of payload bytes after the tag. */
    function Width(): (w: nat)
      ensures w in {1, 2, 4, 8}
    {
      match this
      case U8 | I8 => 1
      case U16 | I16 => 2
      case U32 | I32 => 4
      case U64 | I64 => 8
    }

    predicate Signed()
    {
      I8? || I16? || I32? || I64?
    }

    function Tag(): uint8
    {
      match this
      case U8 => TagUint8
      case U16 => TagUint16
      case U32 => TagUint32
      case U64 => TagUint64
      case I8 => TagInt8
      case I16 => TagInt16
      case I32 => TagInt32
      case I64 => TagInt64
    }
  }

  /** A decoded integer: its Go type and its value. Two Nums are equal map keys
      only when both agree, as with Go's interface{} keys. */
  datatype Num = Num(kind: Kind, n: int)

  /** The values token can return: integers, and maps of integer keys
      (a map-typed key makes Go panic, so keys are never maps). */
  datatype Value = Scalar(num: Num) | Map(entries: map<Num, Value>)

  datatype Failure =
    | UnexpectedType(tag: uint8)   // token: a tag below 0x80
    | UnexpectedMapType(tag: uint8) // unmarshalMap: a tag below 0x80
    | KeyFailed(cause: Failure)    // "couldn't get key"
    | ValueFailed(cause: Failure)  // "couldn't get value"

  /** Go runtime panics that the decoder can run into. */
  datatype PanicReason = SliceOutOfRange | UnhashableKey

  /** What token and unmarshalMap return: a value and the bytes after it,
      an error together with the bytes Go hands back with it, or a panic. */
  datatype Outcome =
    | Ok(value: Value, rest: seq<uint8>)
    | Err(failure: Failure, rest: seq<uint8>)
    | Panic(reason: PanicReason)

  predicate IsSuffix(r: seq<uint8>, s: seq<uint8>)
  {
    |r| <= |s| && r == s[|s| - |r|..]
  }

  lemma SuffixTransitive(a: seq<uint8>, b: seq<uint8>, c: seq<uint8>)
    requires IsSuffix(a, b) && IsSuffix(b, c)
    ensures IsSuffix(a, c)
  {
    assert c[|c| - |a|..] == c[|c| - |b|..][|b| - |a|..];
  }

  /** `b & Map15LengthMask == Map15LengthMask`: the high bit of a byte. */
  predicate HighBitSet(b: uint8)
  {
    b >= 0x80
  }

  /** `0xf & b`: the low nibble of a byte. */
  function LowNibble(b: uint8): (n: nat)
    ensures n < 16
  {
    b % 16
  }

  /** The integer tags handled by token's first switch. */
  function KindOfTag(t: uint8): (k: Option<Kind>)
    ensures k.Some? ==> k.value.Tag() == t
    ensures k.None? ==> t < 0xcc || t > 0xd3
  {
    if t == TagUint8 then Some(U8)
    else if t == TagUint16 then Some(U16)
    else if t == TagUint32 then Some(U32)
    else if t == TagUint64 then Some(U64)
    else if t == TagInt8 then Some(I8)
    else if t == TagInt16 then Some(I16)
    else if t == TagInt32 then Some(I32)
    else if t == TagInt64 then Some(I64)
    else None
  }

  /** The value Go computes from the payload bytes of an integer of kind k. */
  function FieldValue(k: Kind, field: seq<uint8>): int
    requires |field| == k.Width()
  {
    if k.Signed() then TwosComplement(BigEndian(field), k.Width()) else BigEndian(field)
  }

  /** token (msgpack/unmarshal.go:45-76). A decoded value always consumes
      at least its tag byte. */
  function Token(bb: seq<uint8>, spare: nat): (r: Outcome)
    ensures r.Ok? ==> |r.rest| < |bb|
    decreases |bb|, 1
  {
    if |bb| + spare < 4 || |bb| == 0 then Panic(SliceOutOfRange) // bb[:4], bb[0]
    else match KindOfTag(bb[0])
      case Some(k) =>
        var w := k.Width();
        if |bb| < w + 1 then Panic(SliceOutOfRange)
        else Ok(Scalar(Num(k, FieldValue(k, bb[1..w + 1]))), bb[w + 1..])
      case None =>
        if HighBitSet(bb[0]) then DecodeMap(bb, spare) else Err(UnexpectedType(bb[0]), bb)
  }

  /** unmarshalMap (msgpack/unmarshal.go:12-43), as a function of its input.
      Its map16/map32 cases are unreachable: 0xde and 0xdf have the high bit set. */
  function DecodeMap(bb: seq<uint8>, spare: nat): (r: Outcome)
    ensures r.Ok? ==> |r.rest| < |bb|
    decreases |bb|, 0
  {
    if |bb| == 0 then Panic(SliceOutOfRange)
    else if HighBitSet(bb[0]) then DecodeEntries(LowNibble(bb[0]), bb[1..], spare, map[])
    else Err(UnexpectedMapType(bb[0]), bb)
  }

  /** The key/value loop of unmarshalMap: count entries still to read, the map so far. */
  function DecodeEntries(count: nat, bb: seq<uint8>, spare: nat, acc: map<Num, Value>): (r: Outcome)
    ensures r.Ok? ==> |r.rest| <= |bb|
    decreases |bb|, 2, count
  {
    if count == 0 then Ok(Map(acc), bb)
    else match Token(bb, spare)
      case Panic(p) => Panic(p)
      case Err(f, rest) => Err(KeyFailed(f), rest)
      case Ok(k, afterKey) =>
        match Token(afterKey, spare)
        case Panic(p) => Panic(p)
        case Err(f, rest) => Err(ValueFailed(f), rest)
        case Ok(v, afterValue) =>
          if k.Map? then Panic(UnhashableKey) // res[k] = v with a map-typed key
          else DecodeEntries(count - 1, afterValue, spare, acc[k.num := v])
  }

  /** One turn of the key/value loop that reads a scalar key and then a value. */
  lemma DecodeEntriesOneStep(count: nat, bb: seq<uint8>, spare: nat, acc: map<Num, Value>,
                             key: Num, afterKey: seq<uint8>, v: Value, afterValue: seq<uint8>)
    requires count > 0
    requires Token(bb, spare) == Ok(Scalar(key), afterKey)
    requires Token(afterKey, spare) == Ok(v, afterValue)
    ensures DecodeEntries(count, bb, spare, acc) == DecodeEntries(count - 1, afterValue, spare, acc[key := v])
  {
  }

  /** One turn of the key/value loop that reads a scalar key and a value keeps
      the outcome of the remaining loop unchanged. */
  lemma DecodeEntriesStep(count: nat, bb: seq<uint8>, spare: nat, acc: map<Num, Value>,
                          key: Num, afterKey: seq<uint8>, v: Value, afterValue: seq<uint8>,
                          nextCount: nat, nextAcc: map<Num, Value>, target: Outcome)
    requires DecodeEntries(count, bb, spare, acc) == target
    requires count == nextCount + 1 && nextAcc == acc[key := v]
    requires Token(bb, spare) == Ok(Scalar(key), afterKey)
    requires Token(afterKey, spare) == Ok(v, afterValue)
    ensures DecodeEntries(nextCount, afterValue, spare, nextAcc) == target
  {
    DecodeEntriesOneStep(count, bb, spare, acc, key, afterKey, v, afterValue);
  }

  /** unmarshalMap as the loop it is in the source: it reads `l` key/value
      pairs one after the other into `res`, and agrees with DecodeMap. */
  method UnmarshalMap(bb: seq<uint8>, spare: nat) returns (r: Outcome)
    ensures r == DecodeMap(bb, spare)
  {
    if |bb| == 0 {
      return Panic(SliceOutOfRange);
    }
    if !HighBitSet(bb[0]) {
      return Err(UnexpectedMapType(bb[0]), bb);
    }
    var l := LowNibble(bb[0]);
    var rest := bb[1..];
    var res: map<Num, Value> := map[];
    ghost var target := DecodeMap(bb, spare);
    assert target == DecodeEntries(l, rest, spare, res);
    while l > 0
      invariant DecodeEntries(l, rest, spare, res) == target
    {
      var k := Token(rest, spare);
      if k.Panic? {
        return Panic(k.reason);
      }
      if k.Err? {
        return Err(KeyFailed(k.failure), k.rest);
      }
      var v := Token(k.rest, spare);
      if v.Panic? {
        return Panic(v.reason);
      }
      if v.Err? {
        return Err(ValueFailed(v.failure), v.rest);
      }
      if k.value.Map? {
        return Panic(UnhashableKey);
      }
      var key := k.value.num;
      ghost var before, beforeRest, beforeCount := res, rest, l;
      res := res[key := v.value];
      rest := v.rest;
      l := l - 1;
      DecodeEntriesStep(beforeCount, beforeRest, spare, before, key, k.rest, v.value, rest, l, res, target);
    }
    return Ok(Map(res), rest);
  }

  // ---------------------------------------------------------------------
  // What token returns, tag by tag
  // ---------------------------------------------------------------------

  /** The remainder token hands back, with a value or with an error, is a
      suffix of its input: the decoder only ever consumes from the front. */
  lemma {:induction false} TokenRestIsSuffix(bb: seq<uint8>, spare: nat)
    ensures var r := Token(bb, spare); r.Ok? || r.Err? ==> IsSuffix(r.rest, bb)
    decreases |bb|, 1
  {
    if |bb| + spare >= 4 && |bb| > 0 && KindOfTag(bb[0]).None? && HighBitSet(bb[0]) {
      DecodeMapRestIsSuffix(bb, spare);
    }
  }

  lemma {:induction false} DecodeMapRestIsSuffix(bb: seq<uint8>, spare: nat)
    ensures var r := DecodeMap(bb, spare); r.Ok? || r.Err? ==> IsSuffix(r.rest, bb)
    decreases |bb|, 0
  {
    if |bb| > 0 && HighBitSet(bb[0]) {
      var r := DecodeEntries(LowNibble(bb[0]), bb[1..], spare, map[]);
      DecodeEntriesRestIsSuffix(LowNibble(bb[0]), bb[1..], spare, map[]);
      if r.Ok? || r.Err? {
        assert IsSuffix(bb[1..], bb);
        SuffixTransitive(r.rest, bb[1..], bb);
      }
    }
  }

  lemma {:induction false} DecodeEntriesRestIsSuffix(count: nat, bb: seq<uint8>, spare: nat, acc: map<Num, Value>)
    ensures var r := DecodeEntries(count, bb, spare, acc); r.Ok? || r.Err? ==> IsSuffix(r.rest, bb)
    decreases |bb|, 2, count, 2
  {
    if count > 0 {
      match Token(bb, spare)
      case Panic(_) =>
      case Err(_, _) =>
        TokenRestIsSuffix(bb, spare);
        DecodeEntriesKeyErr(count, bb, spare, acc);
      case Ok(key, afterKey) =>
        PairRestIsSuffix(count, bb, spare, acc, key, afterKey);
    }
  }

  /** The same, once the key has decoded. */
  lemma {:induction false} PairRestIsSuffix(count: nat, bb: seq<uint8>, spare: nat, acc: map<Num, Value>,
                                            key: Value, afterKey: seq<uint8>)
    requires count > 0 && Token(bb, spare) == Ok(key, afterKey)
    ensures var r := DecodeEntries(count, bb, spare, acc); r.Ok? || r.Err? ==> IsSuffix(r.rest, bb)
    decreases |bb|, 2, count, 1
  {
    TokenRestIsSuffix(bb, spare);
    TokenRestIsSuffix(afterKey, spare);
    match Token(afterKey, spare)
    case Panic(_) =>
    case Err(_, afterValue) =>
      DecodeEntriesValueErr(count, bb, spare, acc, key, afterKey);
      SuffixTransitive(afterValue, afterKey, bb);
    case Ok(v, afterValue) =>
      if key.Scalar? {
        SuffixTransitive(afterValue, afterKey, bb);
        EntryRestIsSuffix(count, bb, spare, acc, key.num, afterKey, v, afterValue);
      }
  }

  /** The same, once a whole pair has decoded and the loop moves on. */
  lemma {:induction false} EntryRestIsSuffix(count: nat, bb: seq<uint8>, spare: nat, acc: map<Num, Value>,
                                             key: Num, afterKey: seq<uint8>, v: Value, afterValue: seq<uint8>)
    requires count > 0
    requires Token(bb, spare) == Ok(Scalar(key), afterKey)
    requires Token(afterKey, spare) == Ok(v, afterValue)
    requires IsSuffix(afterValue, bb) && |afterValue| < |bb|
    ensures var r := DecodeEntries(count, bb, spare, acc); r.Ok? || r.Err? ==> IsSuffix(r.rest, bb)
    decreases |bb|, 2, count, 0
  {
    var next := acc[key := v];
    DecodeEntriesOneStep(count, bb, spare, acc, key, afterKey, v, afterValue);
    DecodeEntriesRestIsSuffix(count - 1, afterValue, spare, next);
    var r := DecodeEntries(count - 1, afterValue, spare, next);
    if r.Ok? || r.Err? {
      SuffixTransitive(r.rest, afterValue, bb);
    }
  }

  /** The integer tags 0xcc..0xd3: the big-endian (unsigned) or two's-complement
      (signed) reading of the next 1, 2, 4 or 8 bytes, which are consumed with the tag. */
  lemma TokenInteger(bb: seq<uint8>, spare: nat, k: Kind)
    requires |bb| > 0 && bb[0] == k.Tag() && |bb| + spare >= 4 && |bb| >= 1 + k.Width()
    ensures var w := k.Width();
      var n := BigEndian(bb[1..1 + w]);
      && Token(bb, spare) == Ok(Scalar(Num(k, FieldValue(k, bb[1..1 + w]))), bb[1 + w..])
      && (!k.Signed() ==> FieldValue(k, bb[1..1 + w]) == n)
      && (k.Signed() ==> FieldValue(k, bb[1..1 + w]) == if n < SignBit(w) then n else n - Pow256(w))
  {
    assert KindOfTag(bb[0]) == Some(k);
  }

  /** Tag 0xcc yields the byte after it and drops two bytes. */
  lemma TokenUint8(bb: seq<uint8>, spare: nat)
    requires |bb| >= 2 && bb[0] == TagUint8 && |bb| + spare >= 4
    ensures Token(bb, spare) == Ok(Scalar(Num(U8, bb[1])), bb[2..])
  {
    assert BigEndian(bb[1..2]) == BigEndian(bb[1..2][..0]) * 256 + bb[1];
  }

  /** A tag below 0x80, positive fixints included, is refused and nothing is consumed. */
  lemma TokenRejectsLowTags(bb: seq<uint8>, spare: nat)
    requires |bb| > 0 && |bb| + spare >= 4 && bb[0] < 0x80
    ensures Token(bb, spare) == Err(UnexpectedType(bb[0]), bb)
  {
  }

  /** Every other tag with the high bit set, map16 (0xde) and map32 (0xdf) included,
      is a fixmap with `tag & 0x0f` entries behind a one-byte header. */
  lemma TokenHighTagIsFixmap(bb: seq<uint8>, spare: nat)
    requires |bb| > 0 && |bb| + spare >= 4 && bb[0] >= 0x80 && !(0xcc <= bb[0] <= 0xd3)
    ensures Token(bb, spare) == DecodeEntries(bb[0] % 16, bb[1..], spare, map[])
  {
  }

  /** A decoding error is only reported once `bb[:4]` has succeeded. */
  lemma TokenErrNeedsCapacity(bb: seq<uint8>, spare: nat)
    requires Token(bb, spare).Err?
    ensures |bb| + spare >= 4
  {
  }

  /** Fewer than four bytes of capacity make `bb[:4]` panic before any tag is read. */
  lemma TokenShortInputPanics(bb: seq<uint8>, spare: nat)
    requires |bb| + spare < 4
    ensures Token(bb, spare) == Panic(SliceOutOfRange)
  {
  }

  // ---------------------------------------------------------------------
  // An encoder for the integers and fixmaps that token reads back
  // ---------------------------------------------------------------------

  /** The integers a Go value of the given kind can hold. */
  predicate InRange(x: Num)
  {
    var w := x.kind.Width();
    if x.kind.Signed() then -SignBit(w) <= x.n < SignBit(w) else 0 <= x.n < Pow256(w)
  }

  /** The tag of x's kind followed by its big-endian bytes. */
  function EncodeNum(x: Num): (e: seq<uint8>)
    requires InRange(x)
    ensures |e| == 1 + x.kind.Width() && e[0] == x.kind.Tag()
  {
    var w := x.kind.Width();
    [x.kind.Tag()] + ToBigEndian(if x.kind.Signed() then Unsigned(x.n, w) else x.n, w)
  }

  /** token reads back every encoded integer and leaves what follows it. */
  lemma TokenEncodeNum(x: Num, rest: seq<uint8>, spare: nat)
    requires InRange(x) && 1 + x.kind.Width() + |rest| + spare >= 4
    ensures Token(EncodeNum(x) + rest, spare) == Ok(Scalar(x), rest)
  {
    var w := x.kind.Width();
    var bb := EncodeNum(x) + rest;
    assert KindOfTag(bb[0]) == Some(x.kind) by {
      match x.kind
      case U8 => case U16 => case U32 => case U64 =>
      case I8 => case I16 => case I32 => case I64 =>
    }
    assert bb[1..w + 1] == EncodeNum(x)[1..];
    assert bb[w + 1..] == rest;
  }

  /** The map key or value Go builds from a uint8: `uint8(b)` in an interface{}. */
  function Byte(b: uint8): Num
  {
    Num(U8, b)
  }

  /** A uint8 is written as the tag 0xcc and the byte, the pair layout used below. */
  lemma EncodeByte(b: uint8)
    ensures InRange(Byte(b)) && EncodeNum(Byte(b)) == [TagUint8, b]
  {
    ToBigEndianOneByte(b);
  }

  /** Key/value pairs of uint8s, each written as `0xcc k 0xcc v`, in front of tail. */
  function EncodeBytePairs(ps: seq<(uint8, uint8)>, tail: seq<uint8>): (e: seq<uint8>)
    ensures |e| == 4 * |ps| + |tail|
  {
    if ps == [] then tail else [TagUint8, ps[0].0, TagUint8, ps[0].1] + EncodeBytePairs(ps[1..], tail)
  }

  /** A fixmap header for fewer than sixteen pairs, then the pairs and tail. */
  function EncodeByteFixmap(ps: seq<(uint8, uint8)>, tail: seq<uint8>): (e: seq<uint8>)
    requires |ps| < 16
    ensures |e| == 1 + 4 * |ps| + |tail|
  {
    [0x80 + |ps|] + EncodeBytePairs(ps, tail)
  }

  /** The map Go's loop builds from the pairs: `res[k] = v` in order. */
  function FoldPairs(acc: map<Num, Value>, ps: seq<(uint8, uint8)>): map<Num, Value>
    decreases |ps|
  {
    if ps == [] then acc else FoldPairs(acc[Byte(ps[0].0) := Scalar(Byte(ps[0].1))], ps[1..])
  }

  /** bb holds the pairs ps, each as `0xcc k 0xcc v`, and then tail. */
  predicate PairsThen(bb: seq<uint8>, ps: seq<(uint8, uint8)>, tail: seq<uint8>)
    decreases |ps|
  {
    if ps == [] then bb == tail
    else
      && |bb| >= 4 && bb[0] == TagUint8 && bb[1] == ps[0].0 && bb[2] == TagUint8 && bb[3] == ps[0].1
      && PairsThen(bb[4..], ps[1..], tail)
  }

  /** The encoded pairs are the pairs and then tail. */
  lemma {:induction false} EncodedPairsThen(ps: seq<(uint8, uint8)>, tail: seq<uint8>)
    ensures PairsThen(EncodeBytePairs(ps, tail), ps, tail)
    decreases |ps|
  {
    if ps != [] {
      var after := EncodeBytePairs(ps[1..], tail);
      assert ([TagUint8, ps[0].0, TagUint8, ps[0].1] + after)[4..] == after;
      EncodedPairsThen(ps[1..], tail);
    }
  }

  /** The loop reads the first pair and moves on to the others. */
  lemma BytePairStep(bb: seq<uint8>, ps: seq<(uint8, uint8)>, tail: seq<uint8>, spare: nat,
                     count: nat, acc: map<Num, Value>)
    requires ps != [] && count > 0 && |tail| + spare >= 2 && PairsThen(bb, ps, tail)
    ensures DecodeEntries(count, bb, spare, acc)
         == DecodeEntries(count - 1, bb[4..], spare, acc[Byte(ps[0].0) := Scalar(Byte(ps[0].1))])
  {
    assert bb[2..][2..] == bb[4..];
    assert |bb[4..]| >= |tail| by { PairsThenLength(bb[4..], ps[1..], tail); }
    TokenUint8(bb, spare);
    TokenUint8(bb[2..], spare);
    DecodeEntriesOneStep(count, bb, spare, acc, Byte(ps[0].0), bb[2..], Scalar(Byte(ps[0].1)), bb[4..]);
  }

  lemma {:induction false} PairsThenLength(bb: seq<uint8>, ps: seq<(uint8, uint8)>, tail: seq<uint8>)
    requires PairsThen(bb, ps, tail)
    ensures |bb| == 4 * |ps| + |tail|
    decreases |ps|
  {
    if ps != [] {
      PairsThenLength(bb[4..], ps[1..], tail);
    }
  }

  /** The key/value loop reads the pairs one after the other, folding them into
      the map as Go's `res[k] = v` does, and then carries on with what follows. */
  lemma {:induction false} DecodeEntriesSkipsPairs(bb: seq<uint8>, ps: seq<(uint8, uint8)>, tail: seq<uint8>,
                                                   spare: nat, acc: map<Num, Value>, count: nat, left: nat)
    requires PairsThen(bb, ps, tail) && count == |ps| + left && |tail| + spare >= 2
    ensures DecodeEntries(count, bb, spare, acc) == DecodeEntries(left, tail, spare, FoldPairs(acc, ps))
    decreases |ps|
  {
    if ps != [] {
      var next := acc[Byte(ps[0].0) := Scalar(Byte(ps[0].1))];
      BytePairStep(bb, ps, tail, spare, count, acc);
      DecodeEntriesSkipsPairs(bb[4..], ps[1..], tail, spare, next, count - 1, left);
    }
  }

  /** token reads back an encoded fixmap of uint8 pairs as the map the pairs fold into. */
  lemma TokenEncodeFixmap(ps: seq<(uint8, uint8)>, rest: seq<uint8>, spare: nat)
    requires |ps| < 16 && |rest| + spare >= (if ps == [] then 3 else 2)
    ensures Token(EncodeByteFixmap(ps, rest), spare) == Ok(Map(FoldPairs(map[], ps)), rest)
  {
    var bb := EncodeByteFixmap(ps, rest);
    assert bb[0] == 0x80 + |ps| && bb[0] % 16 == |ps|;
    assert bb[1..] == EncodeBytePairs(ps, rest);
    TokenHighTagIsFixmap(bb, spare);
    EncodedPairsThen(ps, rest);
    DecodeEntriesSkipsPairs(bb[1..], ps, rest, spare, map[], |ps|, 0);
  }

  /** A key written twice keeps the value of its last pair: a later duplicate
      overwrites an earlier one. */
  lemma {:induction false} FoldPairsLastWins(acc: map<Num, Value>, ps: seq<(uint8, uint8)>, i: nat)
    requires i < |ps|
    requires forall j :: i < j < |ps| ==> ps[j].0 != ps[i].0
    ensures Byte(ps[i].0) in FoldPairs(acc, ps) && FoldPairs(acc, ps)[Byte(ps[i].0)] == Scalar(Byte(ps[i].1))
    decreases |ps|
  {
    var next := acc[Byte(ps[0].0) := Scalar(Byte(ps[0].1))];
    var others := ps[1..];
    if i == 0 {
      forall j | 0 <= j < |others| ensures others[j].0 != ps[0].0 {
        assert others[j] == ps[j + 1];
      }
      FoldPairsKeeps(next, others, ps[0].0);
    } else {
      forall j | i - 1 < j < |others| ensures others[j].0 != others[i - 1].0 {
        assert others[j] == ps[j + 1];
      }
      FoldPairsLastWins(next, others, i - 1);
    }
  }

  /** Pairs with other keys leave an entry alone. */
  lemma {:induction false} FoldPairsKeeps(acc: map<Num, Value>, ps: seq<(uint8, uint8)>, key: uint8)
    requires Byte(key) in acc
    requires forall j :: 0 <= j < |ps| ==> ps[j].0 != key
    ensures Byte(key) in FoldPairs(acc, ps) && FoldPairs(acc, ps)[Byte(key)] == acc[Byte(key)]
    decreases |ps|
  {
    if ps != [] {
      FoldPairsKeeps(acc[Byte(ps[0].0) := Scalar(Byte(ps[0].1))], ps[1..], key);
    }
  }

  /** Two pairs with the same key 1: the second value, 7, is the one kept. */
  lemma DuplicateKeyExample()
    ensures Token(EncodeByteFixmap([(1, 5), (1, 7)], []), 3) == Ok(Map(map[Byte(1) := Scalar(Byte(7))]), [])
  {
    var ps: seq<(uint8, uint8)> := [(1, 5), (1, 7)];
    TokenEncodeFixmap(ps, [], 3);
    assert FoldPairs(map[], ps) == FoldPairs(map[Byte(1) := Scalar(Byte(5))], ps[1..]);
    assert FoldPairs(map[Byte(1) := Scalar(Byte(5))], ps[1..]) == map[Byte(1) := Scalar(Byte(5))][Byte(1) := Scalar(Byte(7))];
    assert map[Byte(1) := Scalar(Byte(5))][Byte(1) := Scalar(Byte(7))] == map[Byte(1) := Scalar(Byte(7))];
  }

  /** One step of the loop when the key fails. */
  lemma DecodeEntriesKeyErr(count: nat, bb: seq<uint8>, spare: nat, acc: map<Num, Value>)
    requires count > 0 && Token(bb, spare).Err?
    ensures DecodeEntries(count, bb, spare, acc)
         == Err(KeyFailed(Token(bb, spare).failure), Token(bb, spare).rest)
  {
  }

  /** One step of the loop when the key decodes and the value fails. */
  lemma DecodeEntriesValueErr(count: nat, bb: seq<uint8>, spare: nat, acc: map<Num, Value>,
                              key: Value, afterKey: seq<uint8>)
    requires count > 0 && Token(bb, spare) == Ok(key, afterKey) && Token(afterKey, spare).Err?
    ensures DecodeEntries(count, bb, spare, acc)
         == Err(ValueFailed(Token(afterKey, spare).failure), Token(afterKey, spare).rest)
  {
  }

  /** A failing key aborts the whole map: pairs decoded before it are dropped
      and the error, with the remainder token gave back, is the map's result. */
  lemma DecodeEntriesKeyErrorAborts(ps: seq<(uint8, uint8)>, bad: seq<uint8>, spare: nat,
                                    acc: map<Num, Value>, count: nat)
    requires count > |ps| && Token(bad, spare).Err?
    ensures DecodeEntries(count, EncodeBytePairs(ps, bad), spare, acc)
         == Err(KeyFailed(Token(bad, spare).failure), Token(bad, spare).rest)
  {
    TokenErrNeedsCapacity(bad, spare);
    EncodedPairsThen(ps, bad);
    DecodeEntriesSkipsPairs(EncodeBytePairs(ps, bad), ps, bad, spare, acc, count, count - |ps|);
    DecodeEntriesKeyErr(count - |ps|, bad, spare, FoldPairs(acc, ps));
  }

  /** A failing value aborts the whole map in the same way. */
  lemma DecodeEntriesValueErrorAborts(ps: seq<(uint8, uint8)>, key: uint8, bad: seq<uint8>, spare: nat,
                                      acc: map<Num, Value>, count: nat)
    requires count > |ps| && Token(bad, spare).Err?
    ensures DecodeEntries(count, EncodeBytePairs(ps, [TagUint8, key] + bad), spare, acc)
         == Err(ValueFailed(Token(bad, spare).failure), Token(bad, spare).rest)
  {
    var keyed := [TagUint8, key] + bad;
    TokenErrNeedsCapacity(bad, spare);
    EncodedPairsThen(ps, keyed);
    DecodeEntriesSkipsPairs(EncodeBytePairs(ps, keyed), ps, keyed, spare, acc, count, count - |ps|);
    TokenUint8(keyed, spare);
    assert keyed[2..] == bad;
    DecodeEntriesValueErr(count - |ps|, keyed, spare, FoldPairs(acc, ps), Scalar(Byte(key)), bad);
  }
}
