/** The Protocol Buffers wire format, as the generated codecs use it: varints, tagged fields,
    skipping, and the decode loop every generated `decode` is an instance of. Functions read
    a suffix of the input and return the suffix they leave. */
module Wire {
  import Basics

  type byte = x: int | 0 <= x < 256

  /** Err is an exception thrown by the reader. */
  datatype Result<+T> = Ok(value: T) | Err

  const TWO32 := 0x1_0000_0000
  const TWO64 := 0x1_0000_0000_0000_0000

  // ---------------------------------------------------------------- varints

  function EncodeVarint(n: nat): seq<byte> {
    if n < 128 then [n] else [n % 128 + 128] + EncodeVarint(n / 128)
  }

  /** Base 128 varint of at most `budget` bytes, least significant group first. */
  function ReadVarint(s: seq<byte>, budget: nat): (r: Result<(nat, seq<byte>)>)
    ensures r.Ok? ==> |r.value.1| < |s|
  {
    if s == [] || budget == 0 then Err
    else if s[0] < 128 then Ok((s[0], s[1..]))
    else match ReadVarint(s[1..], budget - 1)
      case Err => Err
      case Ok((v, rest)) => Ok((s[0] - 128 + 128 * v, rest))
  }

  function Groups(k: nat): nat {
    if k == 0 then 1 else 128 * Groups(k - 1)
  }

  lemma {:induction false} VarintRoundTrip(n: nat, rest: seq<byte>, budget: nat)
    requires budget >= 1 && n < Groups(budget)
    ensures ReadVarint(EncodeVarint(n) + rest, budget) == Ok((n, rest))
  {
    var s := EncodeVarint(n) + rest;
    if n < 128 {
      assert s[1..] == rest;
    } else {
      assert Groups(budget) == 128 * Groups(budget - 1);
      assert n / 128 < Groups(budget - 1);
      VarintRoundTrip(n / 128, rest, budget - 1);
      assert s[1..] == EncodeVarint(n / 128) + rest;
    }
  }

  /** The number whose groups of seven bits, least significant first, these are. */
  function Base128(s: seq<byte>): nat {
    if s == [] then 0 else s[0] % 128 + 128 * Base128(s[1..])
  }

  /** The high bit says that more follows; no group is left over. */
  lemma {:induction false} VarintBytes(n: nat)
    ensures var s := EncodeVarint(n);
            && Base128(s) == n && s != [] && s[|s| - 1] < 128 && (n > 0 ==> s[|s| - 1] > 0)
            && forall i :: 0 <= i < |s| - 1 ==> s[i] >= 128
  {
    if n >= 128 {
      VarintBytes(n / 128);
      assert EncodeVarint(n)[1..] == EncodeVarint(n / 128);
    }
  }

  /** `reader.uint32()`: any varint of up to ten bytes, cut to its low 32 bits. */
  function ReadUint32(s: seq<byte>): (r: Result<(nat, seq<byte>)>)
    ensures r.Ok? ==> r.value.0 < TWO32 && |r.value.1| < |s|
  {
    match ReadVarint(s, 10)
    case Err => Err
    case Ok((v, rest)) => Ok((v % TWO32, rest))
  }

  lemma TenGroups()
    ensures Groups(10) > TWO64
  {
    assert Groups(5) == 0x8_0000_0000;
    assert Groups(10) == 128 * (128 * (128 * (128 * (128 * Groups(5)))));
  }

  lemma Uint32RoundTrip(n: nat, rest: seq<byte>)
    requires n < TWO32
    ensures ReadUint32(EncodeVarint(n) + rest) == Ok((n, rest))
  {
    TenGroups();
    VarintRoundTrip(n, rest, 10);
    Uint32Of(EncodeVarint(n) + rest, n, rest);
  }

  lemma Uint32Of(s: seq<byte>, n: nat, rest: seq<byte>)
    requires n < TWO32 && ReadVarint(s, 10) == Ok((n, rest))
    ensures ReadUint32(s) == Ok((n, rest))
  {
  }

  type int32 = x: int | -0x8000_0000 <= x < 0x8000_0000

  /** A negative int32 is written sign-extended to 64 bits, in ten bytes. */
  function Int32Bits(x: int32): nat {
    if x < 0 then x + TWO64 else x
  }

  function ToInt32(v: nat): int32 {
    var u := v % TWO32;
    if u < 0x8000_0000 then u else u - TWO32
  }

  lemma LowBitsDecide(v: nat)
    ensures ToInt32(v % TWO32) == ToInt32(v)
  {
    assert v % TWO32 < TWO32;
  }

  lemma Int32RoundTrip(x: int32)
    ensures Int32Bits(x) < TWO64 && ToInt32(Int32Bits(x)) == x
  {
  }

  // ---------------------------------------------------------------- skipping

  function Drop(s: seq<byte>, n: nat): (r: Result<seq<byte>>)
    ensures r.Ok? ==> |r.value| == |s| - n
  {
    if n <= |s| then Ok(s[n..]) else Err
  }

  function ReadLen(s: seq<byte>): (r: Result<(seq<byte>, seq<byte>)>)
    ensures r.Ok? ==> |r.value.1| < |s|
  {
    match ReadUint32(s)
    case Err => Err
    case Ok((n, rest)) => if n <= |rest| then Ok((rest[..n], rest[n..])) else Err
  }

  function Skip(wireType: nat, s: seq<byte>): (r: Result<seq<byte>>)
    ensures r.Ok? ==> |r.value| <= |s|
    decreases |s|, 1
  {
    match wireType
    case 0 => (match ReadVarint(s, 10) case Err => Err case Ok((_, rest)) => Ok(rest))
    case 1 => Drop(s, 8)
    case 2 => (match ReadLen(s) case Err => Err case Ok((_, rest)) => Ok(rest))
    case 3 => SkipGroup(s)
    case 5 => Drop(s, 4)
    case _ => Err
  }

  /** Everything up to and including the end-group tag. */
  function SkipGroup(s: seq<byte>): (r: Result<seq<byte>>)
    ensures r.Ok? ==> |r.value| <= |s|
    decreases |s|, 0
  {
    match ReadUint32(s)
    case Err => Err
    case Ok((tag, rest)) =>
      if tag < 8 then Err
      else if tag % 8 == 4 then Ok(rest)
      else match Skip(tag % 8, rest)
        case Err => Err
        case Ok(rest') => SkipGroup(rest')
  }

  /** What skipping throws on: wire types that do not exist, a payload that the input does not
      hold, a length that it does not hold, and a group with a field number of zero or without
      its end. */
  lemma SkipRefuses(wireType: nat, s: seq<byte>)
    ensures wireType == 4 || wireType > 5 ==> Skip(wireType, s).Err?
    ensures (wireType == 1 && |s| < 8) || (wireType == 5 && |s| < 4) ==> Skip(wireType, s).Err?
    ensures s == [] && wireType != 1 && wireType != 5 ==> Skip(wireType, s).Err?
    ensures wireType == 2 && ReadUint32(s).Ok? && ReadUint32(s).value.0 > |ReadUint32(s).value.1| ==> Skip(wireType, s).Err?
    ensures wireType == 3 && ReadUint32(s).Ok? && ReadUint32(s).value.0 < 8 ==> Skip(wireType, s).Err?
  {
  }

  // ---------------------------------------------------------------- fields

  datatype Payload =
    | Varint(v: nat)
    | Fixed64(bits: seq<byte>)
    | Len(bytes: seq<byte>)
    | Group(fields: seq<Field>)
    | Fixed32(word: seq<byte>)

  datatype Field = Field(num: nat, payload: Payload)

  function WireType(p: Payload): nat {
    match p
    case Varint(_) => 0
    case Fixed64(_) => 1
    case Len(_) => 2
    case Group(_) => 3
    case Fixed32(_) => 5
  }

  function Tag(f: Field): nat {
    f.num * 8 + WireType(f.payload)
  }

  predicate ValidField(f: Field)
    decreases f
  {
    && 0 < Tag(f)
    && f.num * 8 + 7 < TWO32
    && match f.payload
       case Varint(v) => v < TWO64
       case Fixed64(bits) => |bits| == 8
       case Len(bytes) => |bytes| < TWO32
       case Group(fields) => f.num > 0 && forall g <- fields :: g.num > 0 && ValidField(g)
       case Fixed32(word) => |word| == 4
  }

  function EncodePayload(num: nat, p: Payload): seq<byte>
    decreases p, 1
  {
    match p
    case Varint(v) => EncodeVarint(v)
    case Fixed64(bits) => bits
    case Len(bytes) => EncodeVarint(|bytes|) + bytes
    case Group(fields) => EncodeFields(fields) + EncodeVarint(num * 8 + 4)
    case Fixed32(word) => word
  }

  function EncodeField(f: Field): (s: seq<byte>)
    ensures |s| > 0
    decreases f
  {
    EncodeVarint(Tag(f)) + EncodePayload(f.num, f.payload)
  }

  function EncodeFields(fs: seq<Field>): seq<byte>
    decreases fs, 0
  {
    if fs == [] then [] else EncodeField(fs[0]) + EncodeFields(fs[1..])
  }

  lemma EncodeFieldsFirst(fs: seq<Field>, more: seq<byte>)
    requires fs != []
    ensures EncodeFields(fs) + more == EncodeField(fs[0]) + (EncodeFields(fs[1..]) + more)
  {
    Basics.Regroup(EncodeField(fs[0]), EncodeFields(fs[1..]), more);
  }

  lemma {:induction false} EncodeFieldsConcat(a: seq<Field>, b: seq<Field>)
    ensures EncodeFields(a + b) == EncodeFields(a) + EncodeFields(b)
    decreases |a|
  {
    if a == [] {
      assert a + b == b;
    } else {
      assert (a + b)[1..] == a[1..] + b && (a + b)[0] == a[0];
      EncodeFieldsConcat(a[1..], b);
      EncodeFieldsFirst(a, EncodeFields(b));
    }
  }

  lemma ReadTag(f: Field, rest: seq<byte>)
    requires ValidField(f)
    ensures ReadUint32(EncodeField(f) + rest) == Ok((Tag(f), EncodePayload(f.num, f.payload) + rest))
  {
    assert EncodeField(f) + rest == EncodeVarint(Tag(f)) + (EncodePayload(f.num, f.payload) + rest);
    Uint32RoundTrip(Tag(f), EncodePayload(f.num, f.payload) + rest);
  }

  lemma ReadLenRoundTrip(bytes: seq<byte>, rest: seq<byte>)
    requires |bytes| < TWO32
    ensures ReadLen(EncodeVarint(|bytes|) + bytes + rest) == Ok((bytes, rest))
  {
    var s := EncodeVarint(|bytes|) + bytes + rest;
    Basics.Regroup(EncodeVarint(|bytes|), bytes, rest);
    Uint32RoundTrip(|bytes|, bytes + rest);
    LenOf(s, bytes, rest);
  }

  lemma LenOf(s: seq<byte>, bytes: seq<byte>, rest: seq<byte>)
    requires ReadUint32(s) == Ok((|bytes|, bytes + rest))
    ensures ReadLen(s) == Ok((bytes, rest))
  {
    assert (bytes + rest)[..|bytes|] == bytes && (bytes + rest)[|bytes|..] == rest;
  }

  lemma {:induction false} SkipPayload(f: Field, rest: seq<byte>)
    requires ValidField(f)
    ensures Skip(WireType(f.payload), EncodePayload(f.num, f.payload) + rest) == Ok(rest)
    decreases f, 1
  {
    match f.payload
    case Varint(v) =>
      TenGroups();
      VarintRoundTrip(v, rest, 10);
    case Fixed64(_) =>
    case Fixed32(_) =>
    case Len(bytes) =>
      ReadLenRoundTrip(bytes, rest);
    case Group(fields) =>
      assert EncodePayload(f.num, f.payload) + rest == EncodeFields(fields) + (EncodeVarint(f.num * 8 + 4) + rest);
      SkipFields(f, fields, rest);
  }

  lemma {:induction false} SkipFields(f: Field, fields: seq<Field>, rest: seq<byte>)
    requires f.num > 0 && f.num * 8 + 7 < TWO32
    requires forall g <- fields :: g < f && g.num > 0 && ValidField(g)
    ensures SkipGroup(EncodeFields(fields) + (EncodeVarint(f.num * 8 + 4) + rest)) == Ok(rest)
    decreases f, 0, |fields|
  {
    var end := EncodeVarint(f.num * 8 + 4) + rest;
    if fields == [] {
      SkipEnd(f.num, rest);
      assert EncodeFields(fields) + end == end;
    } else {
      EncodeFieldsFirst(fields, end);
      SkipOneInGroup(f, fields[0], EncodeFields(fields[1..]) + end);
      SkipFields(f, fields[1..], rest);
    }
  }

  lemma {:induction false} SkipOneInGroup(f: Field, g: Field, more: seq<byte>)
    requires g < f && g.num > 0 && ValidField(g)
    ensures SkipGroup(EncodeField(g) + more) == SkipGroup(more)
    decreases f, 0, 0
  {
    ReadTag(g, more);
    TagParts(g);
    SkipPayload(g, more);
    SkipStep(EncodeField(g) + more, Tag(g), EncodePayload(g.num, g.payload) + more, more);
  }

  lemma TagParts(f: Field)
    ensures Tag(f) % 8 == WireType(f.payload) && Tag(f) / 8 == f.num && WireType(f.payload) != 4
  {
  }

  lemma SkipStep(s: seq<byte>, tag: nat, rest: seq<byte>, more: seq<byte>)
    requires ReadUint32(s) == Ok((tag, rest)) && tag >= 8 && tag % 8 != 4 && Skip(tag % 8, rest) == Ok(more)
    ensures SkipGroup(s) == SkipGroup(more)
  {
  }

  lemma SkipEnd(num: nat, rest: seq<byte>)
    requires num > 0 && num * 8 + 7 < TWO32
    ensures SkipGroup(EncodeVarint(num * 8 + 4) + rest) == Ok(rest)
  {
    var s := EncodeVarint(num * 8 + 4) + rest;
    Uint32RoundTrip(num * 8 + 4, rest);
    EndTag(num);
    SkipStops(s, num * 8 + 4, rest);
  }

  lemma EndTag(num: nat)
    requires num > 0
    ensures num * 8 + 4 >= 8 && (num * 8 + 4) % 8 == 4
  {
  }

  lemma SkipStops(s: seq<byte>, tag: nat, rest: seq<byte>)
    requires ReadUint32(s) == Ok((tag, rest)) && tag >= 8 && tag % 8 == 4
    ensures SkipGroup(s) == Ok(rest)
  {
  }

  // ---------------------------------------------------------------- the decode loop

  /** What one arm of a generated `switch` does with a tag: it takes the field, it leaves the
      tag to the common code after the switch, or the reader throws. */
  datatype Arm<+M> = Took(message: M, rest: seq<byte>) | NotMine | Threw

  ghost predicate Consuming<M(!new)>(arm: (M, nat, seq<byte>) -> Arm<M>) {
    forall m, tag, s :: arm(m, tag, s).Took? ==> |arm(m, tag, s).rest| <= |s|
  }

  /** `while (reader.pos < end)`: `tail` is how much input lies beyond `end`. It is negative
      when a length prefix claims more than the input holds. */
  ghost function DecodeLoop<M(!new)>(arm: (M, nat, seq<byte>) -> Arm<M>, s: seq<byte>, tail: int, m: M): (r: Result<(M, seq<byte>)>)
    requires Consuming(arm)
    ensures r.Ok? ==> |r.value.1| <= |s|
    decreases |s|
  {
    if |s| <= tail then Ok((m, s))
    else match ReadUint32(s)
      case Err => Err
      case Ok((tag, rest)) =>
        match arm(m, tag, rest)
        case Threw => Err
        case Took(m', rest') => DecodeLoop(arm, rest', tail, m')
        case NotMine =>
          if tag % 8 == 4 || tag == 0 then Ok((m, rest))
          else match Skip(tag % 8, rest)
            case Err => Err
            case Ok(rest') => DecodeLoop(arm, rest', tail, m)
  }

  ghost function DecodeAll<M(!new)>(arm: (M, nat, seq<byte>) -> Arm<M>, s: seq<byte>, m: M): Result<M>
    requires Consuming(arm)
  {
    match DecodeLoop(arm, s, 0, m)
    case Err => Err
    case Ok((m', _)) => Ok(m')
  }

  function Fold<M>(apply: (M, Field) -> M, fs: seq<Field>, m: M): M {
    if fs == [] then m else Fold(apply, fs[1..], apply(m, fs[0]))
  }

  lemma {:induction false} FoldConcat<M>(apply: (M, Field) -> M, a: seq<Field>, b: seq<Field>, m: M)
    ensures Fold(apply, a + b, m) == Fold(apply, b, Fold(apply, a, m))
    decreases |a|
  {
    if a == [] {
      assert a + b == b;
    } else {
      assert (a + b)[1..] == a[1..] + b;
      FoldConcat(apply, a[1..], b, apply(m, a[0]));
    }
  }

  /** `apply` is what a field means to a message, and the arms of the switch realise it on
      the bytes of every field that is `good` for that message. */
  ghost predicate Realises<M(!new)>(arm: (M, nat, seq<byte>) -> Arm<M>, apply: (M, Field) -> M, good: Field -> bool) {
    forall m, f, rest ::
      good(f) ==>
        && ValidField(f)
        && match arm(m, Tag(f), EncodePayload(f.num, f.payload) + rest)
           case Took(m', rest') => m' == apply(m, f) && rest' == rest
           case NotMine => m == apply(m, f)
           case Threw => false
  }

  /** Decoding the bytes of a list of good fields is folding their meaning, it stops exactly
      at its window's end, and what follows the window does not matter. */
  lemma {:induction false} DecodeIsFold<M(!new)>(arm: (M, nat, seq<byte>) -> Arm<M>, apply: (M, Field) -> M, good: Field -> bool,
                                                 fs: seq<Field>, rest: seq<byte>, m: M)
    requires Consuming(arm) && Realises(arm, apply, good)
    requires forall f <- fs :: good(f)
    ensures DecodeLoop(arm, EncodeFields(fs) + rest, |rest|, m) == Ok((Fold(apply, fs, m), rest))
    decreases |fs|
  {
    if fs == [] {
      assert EncodeFields(fs) + rest == rest;
    } else {
      EncodeFieldsFirst(fs, rest);
      assert good(fs[0]);
      DecodeOne(arm, apply, good, fs[0], EncodeFields(fs[1..]) + rest, |rest|, m);
      DecodeIsFold(arm, apply, good, fs[1..], rest, apply(m, fs[0]));
    }
  }

  lemma DecodeOne<M(!new)>(arm: (M, nat, seq<byte>) -> Arm<M>, apply: (M, Field) -> M, good: Field -> bool,
                           f: Field, more: seq<byte>, tail: nat, m: M)
    requires Consuming(arm) && Realises(arm, apply, good) && good(f) && tail <= |more|
    ensures DecodeLoop(arm, EncodeField(f) + more, tail, m) == DecodeLoop(arm, more, tail, apply(m, f))
  {
    var payload := EncodePayload(f.num, f.payload) + more;
    var here := arm(m, Tag(f), EncodePayload(f.num, f.payload) + more);
    assert ValidField(f);
    ReadTag(f, more);
    SkipPayload(f, more);
    TagParts(f);
    assert |EncodeField(f) + more| > tail;
    DecodeStep(arm, EncodeField(f) + more, Tag(f), payload, more, tail, m, apply(m, f));
  }

  lemma DecodeStep<M(!new)>(arm: (M, nat, seq<byte>) -> Arm<M>, s: seq<byte>, tag: nat, rest: seq<byte>, more: seq<byte>,
                            tail: int, m: M, m': M)
    requires Consuming(arm) && |s| > tail && ReadUint32(s) == Ok((tag, rest))
    requires match arm(m, tag, rest)
             case Took(x, left) => x == m' && left == more
             case NotMine => m' == m && tag % 8 != 4 && tag != 0 && Skip(tag % 8, rest) == Ok(more)
             case Threw => false
    ensures DecodeLoop(arm, s, tail, m) == DecodeLoop(arm, more, tail, m')
  {
  }

  /** The same for a whole input. */
  lemma DecodeAllIsFold<M(!new)>(arm: (M, nat, seq<byte>) -> Arm<M>, apply: (M, Field) -> M, good: Field -> bool,
                                 fs: seq<Field>, m: M)
    requires Consuming(arm) && Realises(arm, apply, good)
    requires forall f <- fs :: good(f)
    ensures DecodeAll(arm, EncodeFields(fs), m) == Ok(Fold(apply, fs, m))
  {
    DecodeIsFold(arm, apply, good, fs, [], m);
    assert EncodeFields(fs) + [] == EncodeFields(fs);
  }

  /** Tolerance: fields that mean nothing to the message can be inserted or removed anywhere. */
  lemma {:induction false} FoldIgnores<M>(apply: (M, Field) -> M, means: Field -> bool, fs: seq<Field>, m: M)
    requires forall f <- fs, x: M :: !means(f) ==> apply(x, f) == x
    ensures Fold(apply, fs, m) == Fold(apply, Meaningful(means, fs), m)
    decreases |fs|
  {
    if fs != [] {
      var kept := Meaningful(means, fs[1..]);
      assert fs[0] in fs;
      assert ([fs[0]] + kept)[1..] == kept && [] + kept == kept;
      FoldIgnores(apply, means, fs[1..], apply(m, fs[0]));
    }
  }

  function Meaningful(means: Field -> bool, fs: seq<Field>): (r: seq<Field>)
    ensures forall f <- r :: f in fs && means(f)
  {
    if fs == [] then []
    else (if means(fs[0]) then [fs[0]] else []) + Meaningful(means, fs[1..])
  }

  lemma {:induction false} AllMeaningful(means: Field -> bool, fs: seq<Field>)
    requires forall f <- fs :: means(f)
    ensures Meaningful(means, fs) == fs
  {
    if fs != [] {
      assert fs[0] in fs;
      AllMeaningful(means, fs[1..]);
      assert fs == [fs[0]] + fs[1..];
    }
  }

  // ---------------------------------------------------------------- pieces of messages

  function TakeStr<M>(s: seq<byte>, set_: seq<byte> -> M): Arm<M> {
    match ReadLen(s)
    case Err => Threw
    case Ok((v, rest)) => Took(set_(v), rest)
  }

  /** A string field as the encoders write it: the default is left out. */
  function OptStr(num: nat, v: seq<byte>): seq<Field> {
    if v == [] then [] else [Field(num, Len(v))]
  }

  /** A length-delimited field under its tag, left out if it is empty; and one for each text. */
  function Tagged(tag: byte, v: seq<byte>): seq<byte> {
    [tag] + EncodeVarint(|v|) + v
  }

  function OptTagged(tag: byte, v: seq<byte>): seq<byte> {
    if v == [] then [] else Tagged(tag, v)
  }

  function AllTagged(tag: byte, vs: seq<seq<byte>>): seq<byte> {
    if vs == [] then [] else Tagged(tag, vs[0]) + AllTagged(tag, vs[1..])
  }

  lemma OptStrBytes(num: nat, v: seq<byte>)
    requires num < 16
    ensures EncodeFields(OptStr(num, v)) == OptTagged(num * 8 + 2, v)
  {
    if v != [] { TaggedBytes(num, v); }
  }

  lemma TaggedBytes(num: nat, v: seq<byte>)
    requires num < 16
    ensures EncodeFields([Field(num, Len(v))]) == EncodeField(Field(num, Len(v))) == Tagged(num * 8 + 2, v)
  {
    OneField(Field(num, Len(v)));
    LenFieldBytes(num, v);
    Basics.Regroup([num * 8 + 2], EncodeVarint(|v|), v);
  }

  function LastStr(a: seq<byte>, b: seq<byte>): seq<byte> {
    if b == [] then a else b
  }

  // ---------------------------------------------------------------- reader and writer objects

  /** `BinaryReader`: the position is kept as the input that is still unread. */
  class Reader {
    const len: nat
    var rest: seq<byte>

    constructor (buf: seq<byte>)
      ensures len == |buf| && rest == buf
    {
      len, rest := |buf|, buf;
    }

    function Pos(): int
      reads this
    {
      len - |rest|
    }

    method Uint32() returns (r: Result<nat>)
      modifies this
      ensures match old(ReadUint32(rest))
              case Err => r.Err?
              case Ok((v, left)) => r == Ok(v) && rest == left
    {
      match ReadUint32(rest)
      case Err => r := Err;
      case Ok((v, left)) => r, rest := Ok(v), left;
    }

    method Int32() returns (r: Result<int32>)
      modifies this
      ensures match old(ReadUint32(rest))
              case Err => r.Err?
              case Ok((v, left)) => r == Ok(ToInt32(v)) && rest == left
    {
      match ReadUint32(rest)
      case Err => r := Err;
      case Ok((v, left)) => r, rest := Ok(ToInt32(v)), left;
    }

    method Bool() returns (r: Result<bool>)
      modifies this
      ensures match old(ReadVarint(rest, 10))
              case Err => r.Err?
              case Ok((v, left)) => r == Ok(v % TWO64 != 0) && rest == left
    {
      match ReadVarint(rest, 10)
      case Err => r := Err;
      case Ok((v, left)) => r, rest := Ok(v % TWO64 != 0), left;
    }

    method Str() returns (r: Result<seq<byte>>)
      modifies this
      ensures match old(ReadLen(rest))
              case Err => r.Err?
              case Ok((v, left)) => r == Ok(v) && rest == left
    {
      match ReadLen(rest)
      case Err => r := Err;
      case Ok((v, left)) => r, rest := Ok(v), left;
    }

    method Double() returns (r: Result<seq<byte>>)
      modifies this
      ensures if old(|rest|) < 8 then r.Err? else r == Ok(old(rest[..8])) && rest == old(rest[8..])
    {
      if |rest| < 8 {
        r := Err;
      } else {
        r, rest := Ok(rest[..8]), rest[8..];
      }
    }

    method SkipType(wireType: nat) returns (r: Result<()>)
      modifies this
      ensures match old(Skip(wireType, rest))
              case Err => r.Err?
              case Ok(left) => r == Ok(()) && rest == left
    {
      match Skip(wireType, rest)
      case Err => r := Err;
      case Ok(left) => r, rest := Ok(()), left;
    }
  }

  /** `BinaryWriter`: `Fork` sets the bytes written so far aside and `Join` puts them back in
      front of the length-prefixed bytes written since. */
  class Writer {
    var buf: seq<byte>
    var stack: seq<seq<byte>>

    constructor ()
      ensures buf == [] && stack == []
    {
      buf, stack := [], [];
    }

    method WriteVarint(n: nat)
      modifies this
      ensures buf == old(buf) + EncodeVarint(n) && stack == old(stack)
    {
      buf := buf + EncodeVarint(n);
    }

    method Raw(bytes: seq<byte>)
      modifies this
      ensures buf == old(buf) + bytes && stack == old(stack)
    {
      buf := buf + bytes;
    }

    method Str(bytes: seq<byte>)
      modifies this
      ensures buf == old(buf) + (EncodeVarint(|bytes|) + bytes) && stack == old(stack)
    {
      buf := buf + EncodeVarint(|bytes|) + bytes;
    }

    method Fork()
      modifies this
      ensures buf == [] && stack == old(stack) + [old(buf)]
    {
      buf, stack := [], stack + [buf];
    }

    method Join()
      requires stack != []
      modifies this
      ensures buf == old(stack[|stack| - 1]) + (EncodeVarint(old(|buf|)) + old(buf))
      ensures stack == old(stack[..|stack| - 1])
    {
      buf := stack[|stack| - 1] + EncodeVarint(|buf|) + buf;
      stack := stack[..|stack| - 1];
    }
  }

  lemma LenFieldBytes(num: nat, bytes: seq<byte>)
    ensures EncodeField(Field(num, Len(bytes))) == EncodeVarint(num * 8 + 2) + (EncodeVarint(|bytes|) + bytes)
  {
  }

  /** `writer.uint32(tag).string(v)` */
  method WriteStrField(w: Writer, num: nat, v: seq<byte>)
    modifies w
    ensures w.buf == old(w.buf) + EncodeField(Field(num, Len(v))) && w.stack == old(w.stack)
  {
    w.WriteVarint(num * 8 + 2);
    w.Str(v);
    LenFieldBytes(num, v);
    Basics.Regroup(old(w.buf), EncodeVarint(num * 8 + 2), EncodeVarint(|v|) + v);
  }

  /** A string field of an encoder: `if (v !== '') writer.uint32(tag).string(v)` */
  method WriteOptStr(w: Writer, num: nat, v: seq<byte>)
    modifies w
    ensures w.buf == old(w.buf) + EncodeFields(OptStr(num, v)) && w.stack == old(w.stack)
  {
    if v != [] {
      WriteStrField(w, num, v);
      OneField(Field(num, Len(v)));
    }
  }

  /** `writer.uint32(tag)` followed by a varint value. */
  method WriteVarintField(w: Writer, num: nat, v: nat)
    modifies w
    ensures w.buf == old(w.buf) + EncodeFields([Field(num, Varint(v))]) && w.stack == old(w.stack)
  {
    w.WriteVarint(num * 8);
    w.WriteVarint(v);
    OneField(Field(num, Varint(v)));
    Basics.Regroup(old(w.buf), EncodeVarint(num * 8), EncodeVarint(v));
  }

  lemma OneField(f: Field)
    ensures EncodeFields([f]) == EncodeField(f)
    ensures f.payload.Varint? ==> EncodeField(f) == EncodeVarint(f.num * 8) + EncodeVarint(f.payload.v)
    ensures f.payload.Fixed64? ==> EncodeField(f) == EncodeVarint(f.num * 8 + 1) + f.payload.bits
  {
  }

  /** The writer's bytes after more fields. */
  lemma WroteMore(buf: seq<byte>, before: seq<byte>, done: seq<Field>, more: seq<Field>)
    requires buf == before + EncodeFields(done) + EncodeFields(more)
    ensures buf == before + EncodeFields(done + more)
  {
    EncodeFieldsConcat(done, more);
  }
}
