/** The messages of `grpc/ai-query.ts`: an enum, nested repeated messages and a double. */
module AiQueryCodec {
  import opened Basics
  import opened Wire

  /** A double is its eight bytes; nothing is computed with it. */
  type Double = s: seq<byte> | |s| == 8 witness [0, 0, 0, 0, 0, 0, 0, 0]

  const ZERO: Double := [0, 0, 0, 0, 0, 0, 0, 0]
  const NEG_ZERO: Double := [0, 0, 0, 0, 0, 0, 0, 128]

  datatype RagQueryRequest = RagQueryRequest(orgId: seq<byte>, question: seq<byte>, topK: int32)

  datatype RagSource = RagSource(knowledgeItemId: seq<byte>, title: seq<byte>)

  datatype RagChunk = RagChunk(knowledgeItemId: seq<byte>, titleSnapshot: seq<byte>, content: seq<byte>, score: Double)

  /** `outcome` is any int32: unknown enum numbers, and UNRECOGNIZED = -1, pass through. */
  datatype RagQueryResponse = RagQueryResponse(outcome: int32, summary: seq<byte>, sources: seq<RagSource>, chunks: seq<RagChunk>)

  const BASE_REQUEST := RagQueryRequest([], [], 0)
  const BASE_SOURCE := RagSource([], [])
  const BASE_CHUNK := RagChunk([], [], [], ZERO)
  const BASE_RESPONSE := RagQueryResponse(0, [], [], [])

  // ---------------------------------------------------------------- what encoders write

  function OptInt32(num: nat, x: int32): seq<Field> {
    if x == 0 then [] else [Field(num, Varint(Int32Bits(x)))]
  }

  function RequestFields(m: RagQueryRequest): seq<Field> {
    OptStr(1, m.orgId) + OptStr(2, m.question) + OptInt32(3, m.topK)
  }

  function SourceFields(m: RagSource): seq<Field> {
    OptStr(1, m.knowledgeItemId) + OptStr(2, m.title)
  }

  /** `message.score !== 0` is false for both zeros. */
  function ScoreFields(score: Double): seq<Field> {
    if score == ZERO || score == NEG_ZERO then [] else [Field(4, Fixed64(score))]
  }

  function ChunkFields(m: RagChunk): seq<Field> {
    OptStr(1, m.knowledgeItemId) + OptStr(2, m.titleSnapshot) + OptStr(3, m.content) + ScoreFields(m.score)
  }

  function SourcesFields(ms: seq<RagSource>): seq<Field> {
    seq(|ms|, i requires 0 <= i < |ms| => Field(3, Len(EncodeFields(SourceFields(ms[i])))))
  }

  function ChunksFields(ms: seq<RagChunk>): seq<Field> {
    seq(|ms|, i requires 0 <= i < |ms| => Field(4, Len(EncodeFields(ChunkFields(ms[i])))))
  }

  function ResponseFields(m: RagQueryResponse): seq<Field> {
    OptInt32(1, m.outcome) + OptStr(2, m.summary) + SourcesFields(m.sources) + ChunksFields(m.chunks)
  }

  /** The writer's length prefixes are uint32. */
  predicate RequestFits(m: RagQueryRequest) {
    |m.orgId| < TWO32 && |m.question| < TWO32
  }

  predicate SourceFits(m: RagSource) {
    |m.knowledgeItemId| < TWO32 && |m.title| < TWO32
  }

  predicate ChunkFits(m: RagChunk) {
    |m.knowledgeItemId| < TWO32 && |m.titleSnapshot| < TWO32 && |m.content| < TWO32
  }

  predicate ResponseFits(m: RagQueryResponse) {
    && |m.summary| < TWO32
    && (forall s <- m.sources :: SourceFits(s) && |EncodeFields(SourceFields(s))| < TWO32)
    && (forall c <- m.chunks :: ChunkFits(c) && |EncodeFields(ChunkFields(c))| < TWO32)
  }

  method WriteOptInt32(w: Writer, num: nat, x: int32)
    modifies w
    ensures w.buf == old(w.buf) + EncodeFields(OptInt32(num, x)) && w.stack == old(w.stack)
  {
    if x != 0 {
      WriteVarintField(w, num, Int32Bits(x));
    }
  }

  method EncodeRequest(m: RagQueryRequest, w: Writer)
    modifies w
    ensures w.buf == old(w.buf) + EncodeFields(RequestFields(m)) && w.stack == old(w.stack)
  {
    WriteOptStr(w, 1, m.orgId);
    WriteOptStr(w, 2, m.question);
    WroteMore(w.buf, old(w.buf), OptStr(1, m.orgId), OptStr(2, m.question));
    WriteOptInt32(w, 3, m.topK);
    WroteMore(w.buf, old(w.buf), OptStr(1, m.orgId) + OptStr(2, m.question), OptInt32(3, m.topK));
  }

  method EncodeSource(m: RagSource, w: Writer)
    modifies w
    ensures w.buf == old(w.buf) + EncodeFields(SourceFields(m)) && w.stack == old(w.stack)
  {
    WriteOptStr(w, 1, m.knowledgeItemId);
    WriteOptStr(w, 2, m.title);
    WroteMore(w.buf, old(w.buf), OptStr(1, m.knowledgeItemId), OptStr(2, m.title));
  }

  method EncodeChunk(m: RagChunk, w: Writer)
    modifies w
    ensures w.buf == old(w.buf) + EncodeFields(ChunkFields(m)) && w.stack == old(w.stack)
  {
    ghost var before, done := w.buf, OptStr(1, m.knowledgeItemId);
    WriteOptStr(w, 1, m.knowledgeItemId);
    WriteOptStr(w, 2, m.titleSnapshot);
    WroteMore(w.buf, before, done, OptStr(2, m.titleSnapshot));
    done := done + OptStr(2, m.titleSnapshot);
    WriteOptStr(w, 3, m.content);
    WroteMore(w.buf, before, done, OptStr(3, m.content));
    done := done + OptStr(3, m.content);
    WriteScore(w, m.score);
    WroteMore(w.buf, before, done, ScoreFields(m.score));
  }

  /** `if (score !== 0) writer.uint32(33).double(score)` */
  method WriteScore(w: Writer, score: Double)
    modifies w
    ensures w.buf == old(w.buf) + EncodeFields(ScoreFields(score)) && w.stack == old(w.stack)
  {
    if score != ZERO && score != NEG_ZERO {
      w.WriteVarint(33);
      w.Raw(score);
      OneField(Field(4, Fixed64(score)));
      Regroup(old(w.buf), EncodeVarint(33), score);
    }
  }

  /** `RagSource.encode(v, writer.uint32(26).fork()).join()` */
  method WriteSource(m: RagSource, w: Writer)
    modifies w
    ensures w.buf == old(w.buf) + EncodeField(Field(3, Len(EncodeFields(SourceFields(m))))) && w.stack == old(w.stack)
  {
    ghost var before, inner := w.buf, EncodeFields(SourceFields(m));
    w.WriteVarint(26);
    w.Fork();
    EncodeSource(m, w);
    assert w.buf == inner;
    w.Join();
    LenFieldBytes(3, inner);
    Regroup(before, EncodeVarint(26), EncodeVarint(|inner|) + inner);
  }

  /** `RagChunk.encode(v, writer.uint32(34).fork()).join()` */
  method WriteChunk(m: RagChunk, w: Writer)
    modifies w
    ensures w.buf == old(w.buf) + EncodeField(Field(4, Len(EncodeFields(ChunkFields(m))))) && w.stack == old(w.stack)
  {
    ghost var before, inner := w.buf, EncodeFields(ChunkFields(m));
    w.WriteVarint(34);
    w.Fork();
    EncodeChunk(m, w);
    assert w.buf == inner;
    w.Join();
    LenFieldBytes(4, inner);
    Regroup(before, EncodeVarint(34), EncodeVarint(|inner|) + inner);
  }

  lemma TakeOne(fields: seq<Field>, i: nat)
    requires i < |fields|
    ensures fields[..i + 1] == fields[..i] + [fields[i]]
  {
  }

  method WriteSources(ms: seq<RagSource>, w: Writer)
    modifies w
    ensures w.buf == old(w.buf) + EncodeFields(SourcesFields(ms)) && w.stack == old(w.stack)
  {
    ghost var before, fields := w.buf, SourcesFields(ms);
    for i := 0 to |ms|
      invariant w.buf == before + EncodeFields(fields[..i]) && w.stack == old(w.stack)
    {
      WriteSource(ms[i], w);
      OneField(fields[i]);
      WroteMore(w.buf, before, fields[..i], [fields[i]]);
      TakeOne(fields, i);
    }
    assert fields[..|ms|] == fields;
  }

  method WriteChunks(ms: seq<RagChunk>, w: Writer)
    modifies w
    ensures w.buf == old(w.buf) + EncodeFields(ChunksFields(ms)) && w.stack == old(w.stack)
  {
    ghost var before, fields := w.buf, ChunksFields(ms);
    for i := 0 to |ms|
      invariant w.buf == before + EncodeFields(fields[..i]) && w.stack == old(w.stack)
    {
      WriteChunk(ms[i], w);
      OneField(fields[i]);
      WroteMore(w.buf, before, fields[..i], [fields[i]]);
      TakeOne(fields, i);
    }
    assert fields[..|ms|] == fields;
  }

  method EncodeResponse(m: RagQueryResponse, w: Writer)
    modifies w
    ensures w.buf == old(w.buf) + EncodeFields(ResponseFields(m)) && w.stack == old(w.stack)
  {
    ghost var before, done := w.buf, OptInt32(1, m.outcome);
    WriteOptInt32(w, 1, m.outcome);
    WriteOptStr(w, 2, m.summary);
    WroteMore(w.buf, before, done, OptStr(2, m.summary));
    done := done + OptStr(2, m.summary);
    WriteSources(m.sources, w);
    WroteMore(w.buf, before, done, SourcesFields(m.sources));
    done := done + SourcesFields(m.sources);
    WriteChunks(m.chunks, w);
    WroteMore(w.buf, before, done, ChunksFields(m.chunks));
  }

  // The bytes themselves, under the tags that other implementations of the schema use.

  lemma OptInt32Bytes(num: nat, x: int32)
    requires num < 16
    ensures EncodeFields(OptInt32(num, x)) == if x == 0 then [] else [num * 8] + EncodeVarint(if x < 0 then x + 0x1_0000_0000_0000_0000 else x)
  {
    if x != 0 { OneField(Field(num, Varint(Int32Bits(x)))); }
  }

  lemma RequestBytes(m: RagQueryRequest)
    ensures EncodeFields(RequestFields(m)) ==
            OptTagged(10, m.orgId) + OptTagged(18, m.question)
            + if m.topK == 0 then [] else [24] + EncodeVarint(if m.topK < 0 then m.topK + 0x1_0000_0000_0000_0000 else m.topK)
  {
    EncodeFieldsConcat(OptStr(1, m.orgId) + OptStr(2, m.question), OptInt32(3, m.topK));
    EncodeFieldsConcat(OptStr(1, m.orgId), OptStr(2, m.question));
    OptStrBytes(1, m.orgId);
    OptStrBytes(2, m.question);
    OptInt32Bytes(3, m.topK);
  }

  lemma SourceBytes(m: RagSource)
    ensures EncodeFields(SourceFields(m)) == OptTagged(10, m.knowledgeItemId) + OptTagged(18, m.title)
  {
    EncodeFieldsConcat(OptStr(1, m.knowledgeItemId), OptStr(2, m.title));
    OptStrBytes(1, m.knowledgeItemId);
    OptStrBytes(2, m.title);
  }

  lemma ScoreBytes(score: Double)
    ensures EncodeFields(ScoreFields(score)) ==
            if score == [0, 0, 0, 0, 0, 0, 0, 0] || score == [0, 0, 0, 0, 0, 0, 0, 128] then [] else [33] + score
  {
    if score != ZERO && score != NEG_ZERO { OneField(Field(4, Fixed64(score))); }
  }

  lemma ChunkBytes(m: RagChunk)
    ensures EncodeFields(ChunkFields(m)) ==
            OptTagged(10, m.knowledgeItemId) + OptTagged(18, m.titleSnapshot) + OptTagged(26, m.content)
            + if m.score == [0, 0, 0, 0, 0, 0, 0, 0] || m.score == [0, 0, 0, 0, 0, 0, 0, 128] then [] else [33] + m.score
  {
    var x, y, z := OptStr(1, m.knowledgeItemId), OptStr(2, m.titleSnapshot), OptStr(3, m.content);
    EncodeFieldsConcat(x + y + z, ScoreFields(m.score));
    EncodeFieldsConcat(x + y, z);
    EncodeFieldsConcat(x, y);
    OptStrBytes(1, m.knowledgeItemId);
    OptStrBytes(2, m.titleSnapshot);
    OptStrBytes(3, m.content);
    ScoreBytes(m.score);
  }

  /** The nested messages, each as its own bytes. */
  function SourceParts(ms: seq<RagSource>): seq<seq<byte>> {
    if ms == [] then [] else [EncodeFields(SourceFields(ms[0]))] + SourceParts(ms[1..])
  }

  function ChunkParts(ms: seq<RagChunk>): seq<seq<byte>> {
    if ms == [] then [] else [EncodeFields(ChunkFields(ms[0]))] + ChunkParts(ms[1..])
  }

  lemma {:induction false} SourcesBytes(ms: seq<RagSource>)
    ensures EncodeFields(SourcesFields(ms)) == AllTagged(26, SourceParts(ms))
    decreases |ms|
  {
    if ms != [] {
      SourcesBytes(ms[1..]);
      assert SourcesFields(ms)[1..] == SourcesFields(ms[1..]);
      NextTagged(3, EncodeFields(SourceFields(ms[0])), SourcesFields(ms), SourceParts(ms[1..]));
    }
  }

  lemma {:induction false} ChunksBytes(ms: seq<RagChunk>)
    ensures EncodeFields(ChunksFields(ms)) == AllTagged(34, ChunkParts(ms))
    decreases |ms|
  {
    if ms != [] {
      ChunksBytes(ms[1..]);
      assert ChunksFields(ms)[1..] == ChunksFields(ms[1..]);
      NextTagged(4, EncodeFields(ChunkFields(ms[0])), ChunksFields(ms), ChunkParts(ms[1..]));
    }
  }

  lemma NextTagged(num: nat, part: seq<byte>, fs: seq<Field>, parts: seq<seq<byte>>)
    requires num < 16 && fs != [] && fs[0] == Field(num, Len(part)) && EncodeFields(fs[1..]) == AllTagged(num * 8 + 2, parts)
    ensures EncodeFields(fs) == AllTagged(num * 8 + 2, [part] + parts)
  {
    TaggedBytes(num, part);
    assert ([part] + parts)[1..] == parts;
  }

  lemma ResponseBytes(m: RagQueryResponse)
    ensures EncodeFields(ResponseFields(m)) ==
            (if m.outcome == 0 then [] else [8] + EncodeVarint(if m.outcome < 0 then m.outcome + 0x1_0000_0000_0000_0000 else m.outcome))
            + OptTagged(18, m.summary)
            + AllTagged(26, SourceParts(m.sources)) + AllTagged(34, ChunkParts(m.chunks))
  {
    var w, x, y, z := OptInt32(1, m.outcome), OptStr(2, m.summary), SourcesFields(m.sources), ChunksFields(m.chunks);
    EncodeFieldsConcat(w + x + y, z);
    EncodeFieldsConcat(w + x, y);
    EncodeFieldsConcat(w, x);
    OptInt32Bytes(1, m.outcome);
    OptStrBytes(2, m.summary);
    SourcesBytes(m.sources);
    ChunksBytes(m.chunks);
  }

  // ---------------------------------------------------------------- what decoders read

  function TakeInt32<M>(s: seq<byte>, set_: int32 -> M): Arm<M> {
    match ReadUint32(s)
    case Err => Threw
    case Ok((v, rest)) => Took(set_(ToInt32(v)), rest)
  }

  function RequestArm(m: RagQueryRequest, tag: nat, s: seq<byte>): Arm<RagQueryRequest> {
    match tag / 8
    case 1 => if tag != 10 then NotMine else TakeStr(s, v => m.(orgId := v))
    case 2 => if tag != 18 then NotMine else TakeStr(s, v => m.(question := v))
    case 3 => if tag != 24 then NotMine else TakeInt32(s, v => m.(topK := v))
    case _ => NotMine
  }

  function SourceArm(m: RagSource, tag: nat, s: seq<byte>): Arm<RagSource> {
    match tag / 8
    case 1 => if tag != 10 then NotMine else TakeStr(s, v => m.(knowledgeItemId := v))
    case 2 => if tag != 18 then NotMine else TakeStr(s, v => m.(title := v))
    case _ => NotMine
  }

  function ChunkArm(m: RagChunk, tag: nat, s: seq<byte>): Arm<RagChunk> {
    match tag / 8
    case 1 => if tag != 10 then NotMine else TakeStr(s, v => m.(knowledgeItemId := v))
    case 2 => if tag != 18 then NotMine else TakeStr(s, v => m.(titleSnapshot := v))
    case 3 => if tag != 26 then NotMine else TakeStr(s, v => m.(content := v))
    case 4 => if tag != 33 then NotMine else if |s| < 8 then Threw else Took(m.(score := s[..8]), s[8..])
    case _ => NotMine
  }

  /** The loops of the nested decoders, which read from the middle of the outer input. */
  ghost function SourceLoop(s: seq<byte>, tail: int, m: RagSource): (r: Result<(RagSource, seq<byte>)>)
    ensures r.Ok? ==> |r.value.1| <= |s|
  {
    SourceRealised();
    DecodeLoop(SourceArm, s, tail, m)
  }

  ghost function ChunkLoop(s: seq<byte>, tail: int, m: RagChunk): (r: Result<(RagChunk, seq<byte>)>)
    ensures r.Ok? ==> |r.value.1| <= |s|
  {
    ChunkRealised();
    DecodeLoop(ChunkArm, s, tail, m)
  }

  /** `RagSource.decode(reader, reader.uint32())` */
  ghost function NextSource(s: seq<byte>): (r: Result<(RagSource, seq<byte>)>)
    ensures r.Ok? ==> |r.value.1| < |s|
  {
    match ReadUint32(s)
    case Err => Err
    case Ok((n, rest)) => SourceLoop(rest, |rest| - n, BASE_SOURCE)
  }

  /** `RagChunk.decode(reader, reader.uint32())` */
  ghost function NextChunk(s: seq<byte>): (r: Result<(RagChunk, seq<byte>)>)
    ensures r.Ok? ==> |r.value.1| < |s|
  {
    match ReadUint32(s)
    case Err => Err
    case Ok((n, rest)) => ChunkLoop(rest, |rest| - n, BASE_CHUNK)
  }

  ghost function ResponseArm(m: RagQueryResponse, tag: nat, s: seq<byte>): Arm<RagQueryResponse> {
    match tag / 8
    case 1 => if tag != 8 then NotMine else TakeInt32(s, v => m.(outcome := v))
    case 2 => if tag != 18 then NotMine else TakeStr(s, v => m.(summary := v))
    case 3 =>
      if tag != 26 then NotMine
      else (match NextSource(s)
            case Err => Threw
            case Ok((v, left)) => Took(m.(sources := m.sources + [v]), left))
    case 4 =>
      if tag != 34 then NotMine
      else (match NextChunk(s)
            case Err => Threw
            case Ok((v, left)) => Took(m.(chunks := m.chunks + [v]), left))
    case _ => NotMine
  }

  ghost function ParseRequest(s: seq<byte>): Result<RagQueryRequest> {
    RequestRealised();
    DecodeAll(RequestArm, s, BASE_REQUEST)
  }

  ghost function ParseSource(s: seq<byte>): Result<RagSource> {
    SourceRealised();
    DecodeAll(SourceArm, s, BASE_SOURCE)
  }

  ghost function ParseChunk(s: seq<byte>): Result<RagChunk> {
    ChunkRealised();
    DecodeAll(ChunkArm, s, BASE_CHUNK)
  }

  ghost function RequestLoop(s: seq<byte>, tail: int, m: RagQueryRequest): Result<(RagQueryRequest, seq<byte>)> {
    RequestRealised();
    DecodeLoop(RequestArm, s, tail, m)
  }

  ghost function ResponseLoop(s: seq<byte>, tail: int, m: RagQueryResponse): Result<(RagQueryResponse, seq<byte>)> {
    ResponseConsumes();
    DecodeLoop(ResponseArm, s, tail, m)
  }

  ghost function ParseResponse(s: seq<byte>): Result<RagQueryResponse> {
    ResponseConsumes();
    DecodeAll(ResponseArm, s, BASE_RESPONSE)
  }

  /** Without a length the window is the whole input. */
  method DecodeRequest(reader: Reader, length: Option<nat>) returns (r: Result<RagQueryRequest>)
    modifies reader
    ensures var tail := if length.None? then 0 else old(|reader.rest|) - length.value;
            match RequestLoop(old(reader.rest), tail, BASE_REQUEST)
            case Err => r.Err?
            case Ok((m, left)) => r == Ok(m) && reader.rest == left
  {
    var end := if length.None? then reader.len else reader.Pos() + length.value;
    ghost var tail := reader.len - end;
    var message := BASE_REQUEST;
    while reader.Pos() < end
      invariant RequestLoop(reader.rest, tail, message) == RequestLoop(old(reader.rest), tail, BASE_REQUEST)
      decreases |reader.rest|
    {
      var tag := reader.Uint32();
      if tag.Err? {
        return Err;
      }
      match tag.value / 8 {
        case 1 =>
          if tag.value == 10 {
            var v := reader.Str();
            if v.Err? {
              return Err;
            }
            message := message.(orgId := v.value);
            continue;
          }
        case 2 =>
          if tag.value == 18 {
            var v := reader.Str();
            if v.Err? {
              return Err;
            }
            message := message.(question := v.value);
            continue;
          }
        case 3 =>
          if tag.value == 24 {
            var v := reader.Int32();
            if v.Err? {
              return Err;
            }
            message := message.(topK := v.value);
            continue;
          }
        case _ =>
      }
      if tag.value % 8 == 4 || tag.value == 0 {
        break;
      }
      var skipped := reader.SkipType(tag.value % 8);
      if skipped.Err? {
        return Err;
      }
    }
    r := Ok(message);
  }

  method DecodeSource(reader: Reader, length: nat) returns (r: Result<RagSource>)
    modifies reader
    ensures match SourceLoop(old(reader.rest), old(|reader.rest|) - length, BASE_SOURCE)
            case Err => r.Err?
            case Ok((m, left)) => r == Ok(m) && reader.rest == left
  {
    var end := reader.Pos() + length;
    ghost var tail := reader.len - end;
    var message := BASE_SOURCE;
    while reader.Pos() < end
      invariant SourceLoop(reader.rest, tail, message) == SourceLoop(old(reader.rest), tail, BASE_SOURCE)
      decreases |reader.rest|
    {
      var tag := reader.Uint32();
      if tag.Err? {
        return Err;
      }
      match tag.value / 8 {
        case 1 =>
          if tag.value == 10 {
            var v := reader.Str();
            if v.Err? {
              return Err;
            }
            message := message.(knowledgeItemId := v.value);
            continue;
          }
        case 2 =>
          if tag.value == 18 {
            var v := reader.Str();
            if v.Err? {
              return Err;
            }
            message := message.(title := v.value);
            continue;
          }
        case _ =>
      }
      if tag.value % 8 == 4 || tag.value == 0 {
        break;
      }
      var skipped := reader.SkipType(tag.value % 8);
      if skipped.Err? {
        return Err;
      }
    }
    r := Ok(message);
  }

  method DecodeChunk(reader: Reader, length: nat) returns (r: Result<RagChunk>)
    modifies reader
    ensures match ChunkLoop(old(reader.rest), old(|reader.rest|) - length, BASE_CHUNK)
            case Err => r.Err?
            case Ok((m, left)) => r == Ok(m) && reader.rest == left
  {
    var end := reader.Pos() + length;
    ghost var tail := reader.len - end;
    var message := BASE_CHUNK;
    while reader.Pos() < end
      invariant ChunkLoop(reader.rest, tail, message) == ChunkLoop(old(reader.rest), tail, BASE_CHUNK)
      decreases |reader.rest|
    {
      var tag := reader.Uint32();
      if tag.Err? {
        return Err;
      }
      match tag.value / 8 {
        case 1 =>
          if tag.value == 10 {
            var v := reader.Str();
            if v.Err? {
              return Err;
            }
            message := message.(knowledgeItemId := v.value);
            continue;
          }
        case 2 =>
          if tag.value == 18 {
            var v := reader.Str();
            if v.Err? {
              return Err;
            }
            message := message.(titleSnapshot := v.value);
            continue;
          }
        case 3 =>
          if tag.value == 26 {
            var v := reader.Str();
            if v.Err? {
              return Err;
            }
            message := message.(content := v.value);
            continue;
          }
        case 4 =>
          if tag.value == 33 {
            var v := reader.Double();
            if v.Err? {
              return Err;
            }
            message := message.(score := v.value);
            continue;
          }
        case _ =>
      }
      if tag.value % 8 == 4 || tag.value == 0 {
        break;
      }
      var skipped := reader.SkipType(tag.value % 8);
      if skipped.Err? {
        return Err;
      }
    }
    r := Ok(message);
  }

  method ReadNextSource(reader: Reader) returns (r: Result<RagSource>)
    modifies reader
    ensures match NextSource(old(reader.rest))
            case Err => r.Err?
            case Ok((m, left)) => r == Ok(m) && reader.rest == left
  {
    var n := reader.Uint32();
    if n.Err? {
      return Err;
    }
    r := DecodeSource(reader, n.value);
  }

  method ReadNextChunk(reader: Reader) returns (r: Result<RagChunk>)
    modifies reader
    ensures match NextChunk(old(reader.rest))
            case Err => r.Err?
            case Ok((m, left)) => r == Ok(m) && reader.rest == left
  {
    var n := reader.Uint32();
    if n.Err? {
      return Err;
    }
    r := DecodeChunk(reader, n.value);
  }

  method DecodeResponse(reader: Reader, length: Option<nat>) returns (r: Result<RagQueryResponse>)
    modifies reader
    ensures var tail := if length.None? then 0 else old(|reader.rest|) - length.value;
            match ResponseLoop(old(reader.rest), tail, BASE_RESPONSE)
            case Err => r.Err?
            case Ok((m, left)) => r == Ok(m) && reader.rest == left
  {
    var end := if length.None? then reader.len else reader.Pos() + length.value;
    ghost var tail := reader.len - end;
    var message := BASE_RESPONSE;
    while reader.Pos() < end
      invariant ResponseLoop(reader.rest, tail, message) == ResponseLoop(old(reader.rest), tail, BASE_RESPONSE)
      decreases |reader.rest|
    {
      var tag := reader.Uint32();
      if tag.Err? {
        return Err;
      }
      match tag.value / 8 {
        case 1 =>
          if tag.value == 8 {
            var v := reader.Int32();
            if v.Err? {
              return Err;
            }
            message := message.(outcome := v.value);
            continue;
          }
        case 2 =>
          if tag.value == 18 {
            var v := reader.Str();
            if v.Err? {
              return Err;
            }
            message := message.(summary := v.value);
            continue;
          }
        case 3 =>
          if tag.value == 26 {
            var v := ReadNextSource(reader);
            if v.Err? {
              return Err;
            }
            message := message.(sources := message.sources + [v.value]);
            continue;
          }
        case 4 =>
          if tag.value == 34 {
            var v := ReadNextChunk(reader);
            if v.Err? {
              return Err;
            }
            message := message.(chunks := message.chunks + [v.value]);
            continue;
          }
        case _ =>
      }
      if tag.value % 8 == 4 || tag.value == 0 {
        break;
      }
      var skipped := reader.SkipType(tag.value % 8);
      if skipped.Err? {
        return Err;
      }
    }
    r := Ok(message);
  }

  // ---------------------------------------------------------------- what fields mean

  function RequestApply(m: RagQueryRequest, f: Field): RagQueryRequest {
    match f
    case Field(1, Len(v)) => m.(orgId := v)
    case Field(2, Len(v)) => m.(question := v)
    case Field(3, Varint(v)) => m.(topK := ToInt32(v))
    case _ => m
  }

  function SourceApply(m: RagSource, f: Field): RagSource {
    match f
    case Field(1, Len(v)) => m.(knowledgeItemId := v)
    case Field(2, Len(v)) => m.(title := v)
    case _ => m
  }

  function ChunkApply(m: RagChunk, f: Field): RagChunk {
    match f
    case Field(1, Len(v)) => m.(knowledgeItemId := v)
    case Field(2, Len(v)) => m.(titleSnapshot := v)
    case Field(3, Len(v)) => m.(content := v)
    case Field(4, Fixed64(bits)) => if |bits| == 8 then m.(score := bits) else m
    case _ => m
  }

  /** A nested message is what its own bytes alone decode to. */
  ghost function ResponseApply(m: RagQueryResponse, f: Field): RagQueryResponse {
    match f
    case Field(1, Varint(v)) => m.(outcome := ToInt32(v))
    case Field(2, Len(v)) => m.(summary := v)
    case Field(3, Len(v)) => if ParseSource(v).Ok? then m.(sources := m.sources + [ParseSource(v).value]) else m
    case Field(4, Len(v)) => if ParseChunk(v).Ok? then m.(chunks := m.chunks + [ParseChunk(v).value]) else m
    case _ => m
  }

  ghost predicate EncodesFields(bytes: seq<byte>) {
    exists fs :: bytes == EncodeFields(fs) && forall f <- fs :: ValidField(f)
  }

  /** A nested message must be a sequence of valid fields; anything else is as in a flat one. */
  ghost predicate ResponseGood(f: Field) {
    ValidField(f) && (f.payload.Len? && 3 <= f.num <= 4 ==> EncodesFields(f.payload.bytes))
  }

  lemma RequestRealised()
    ensures Consuming(RequestArm) && Realises(RequestArm, RequestApply, ValidField)
  {
    forall m: RagQueryRequest, f, rest | ValidField(f)
      ensures match RequestArm(m, Tag(f), EncodePayload(f.num, f.payload) + rest)
              case Took(m', rest') => m' == RequestApply(m, f) && rest' == rest
              case NotMine => m == RequestApply(m, f)
              case Threw => false
    {
      TagParts(f);
      if f.payload.Len? { ReadLenRoundTrip(f.payload.bytes, rest); }
      if f.payload.Varint? { ReadInt32Field(f.payload.v, rest); }
    }
  }

  lemma ReadInt32Field(v: nat, rest: seq<byte>)
    requires v < TWO64
    ensures ReadUint32(EncodeVarint(v) + rest) == Ok((v % TWO32, rest)) && ToInt32(v % TWO32) == ToInt32(v)
  {
    TenGroups();
    VarintRoundTrip(v, rest, 10);
    LowBitsDecide(v);
  }

  lemma SourceRealised()
    ensures Consuming(SourceArm) && Realises(SourceArm, SourceApply, ValidField)
  {
    forall m: RagSource, f, rest | ValidField(f)
      ensures match SourceArm(m, Tag(f), EncodePayload(f.num, f.payload) + rest)
              case Took(m', rest') => m' == SourceApply(m, f) && rest' == rest
              case NotMine => m == SourceApply(m, f)
              case Threw => false
    {
      TagParts(f);
      if f.payload.Len? { ReadLenRoundTrip(f.payload.bytes, rest); }
    }
  }

  lemma ChunkRealised()
    ensures Consuming(ChunkArm) && Realises(ChunkArm, ChunkApply, ValidField)
  {
    forall m: RagChunk, f, rest | ValidField(f)
      ensures match ChunkArm(m, Tag(f), EncodePayload(f.num, f.payload) + rest)
              case Took(m', rest') => m' == ChunkApply(m, f) && rest' == rest
              case NotMine => m == ChunkApply(m, f)
              case Threw => false
    {
      TagParts(f);
      if f.payload.Len? { ReadLenRoundTrip(f.payload.bytes, rest); }
      if f.payload.Fixed64? {
        assert (f.payload.bits + rest)[..8] == f.payload.bits && (f.payload.bits + rest)[8..] == rest;
      }
    }
  }

  lemma ResponseConsumes()
    ensures Consuming(ResponseArm)
  {
  }

  /** A nested decoder sees only its own window, whatever bytes follow it. */
  lemma NestedWindow(bytes: seq<byte>, rest: seq<byte>)
    requires EncodesFields(bytes)
    ensures ParseSource(bytes).Ok? && SourceLoop(bytes + rest, |rest|, BASE_SOURCE) == Ok((ParseSource(bytes).value, rest))
    ensures ParseChunk(bytes).Ok? && ChunkLoop(bytes + rest, |rest|, BASE_CHUNK) == Ok((ParseChunk(bytes).value, rest))
  {
    var fs :| bytes == EncodeFields(fs) && forall f <- fs :: ValidField(f);
    SourceRealised();
    DecodeIsFold(SourceArm, SourceApply, ValidField, fs, rest, BASE_SOURCE);
    DecodeAllIsFold(SourceArm, SourceApply, ValidField, fs, BASE_SOURCE);
    ChunkRealised();
    DecodeIsFold(ChunkArm, ChunkApply, ValidField, fs, rest, BASE_CHUNK);
    DecodeAllIsFold(ChunkArm, ChunkApply, ValidField, fs, BASE_CHUNK);
  }

  lemma {:induction false} ResponseFieldRealised(m: RagQueryResponse, f: Field, rest: seq<byte>)
    requires ResponseGood(f)
    ensures match ResponseArm(m, Tag(f), EncodePayload(f.num, f.payload) + rest)
            case Took(m', rest') => m' == ResponseApply(m, f) && rest' == rest
            case NotMine => m == ResponseApply(m, f)
            case Threw => false
  {
    TagParts(f);
    match f.payload
    case Len(bytes) =>
      ReadLenRoundTrip(bytes, rest);
      if 3 <= f.num <= 4 {
        Uint32RoundTrip(|bytes|, bytes + rest);
        Regroup(EncodeVarint(|bytes|), bytes, rest);
        NestedWindow(bytes, rest);
      }
    case Varint(v) => ReadInt32Field(v, rest);
    case _ =>
  }

  lemma ResponseRealised()
    ensures Consuming(ResponseArm) && Realises(ResponseArm, ResponseApply, ResponseGood)
  {
    var arm, apply, good := ResponseArm, ResponseApply, ResponseGood;
    assert forall f :: good(f) == ResponseGood(f);
    forall m: RagQueryResponse, f, rest | good(f)
      ensures match arm(m, Tag(f), EncodePayload(f.num, f.payload) + rest)
              case Took(m', rest') => m' == apply(m, f) && rest' == rest
              case NotMine => m == apply(m, f)
              case Threw => false
    {
      ResponseFieldRealised(m, f, rest);
    }
  }

  // ---------------------------------------------------------------- merging and round trips

  function LastInt32(a: int32, b: int32): int32 {
    if b == 0 then a else b
  }

  /** Both zeros are left out by the encoder, so neither overrides an earlier score. */
  function LastScore(a: Double, b: Double): Double {
    if b == ZERO || b == NEG_ZERO then a else b
  }

  function MergeRequest(a: RagQueryRequest, b: RagQueryRequest): RagQueryRequest {
    RagQueryRequest(LastStr(a.orgId, b.orgId), LastStr(a.question, b.question), LastInt32(a.topK, b.topK))
  }

  function MergeSource(a: RagSource, b: RagSource): RagSource {
    RagSource(LastStr(a.knowledgeItemId, b.knowledgeItemId), LastStr(a.title, b.title))
  }

  function MergeChunk(a: RagChunk, b: RagChunk): RagChunk {
    RagChunk(LastStr(a.knowledgeItemId, b.knowledgeItemId), LastStr(a.titleSnapshot, b.titleSnapshot),
             LastStr(a.content, b.content), LastScore(a.score, b.score))
  }

  /** What the wire keeps of a chunk: the sign of a zero score is lost. */
  function Normal(c: RagChunk): RagChunk {
    if c.score == NEG_ZERO then c.(score := ZERO) else c
  }

  function NormalChunks(cs: seq<RagChunk>): seq<RagChunk> {
    seq(|cs|, i requires 0 <= i < |cs| => Normal(cs[i]))
  }

  function MergeResponse(a: RagQueryResponse, b: RagQueryResponse): RagQueryResponse {
    RagQueryResponse(LastInt32(a.outcome, b.outcome), LastStr(a.summary, b.summary),
                     a.sources + b.sources, a.chunks + NormalChunks(b.chunks))
  }

  lemma FoldRequest(a: RagQueryRequest, b: RagQueryRequest)
    ensures Fold(RequestApply, RequestFields(b), a) == MergeRequest(a, b)
  {
    FoldConcat(RequestApply, OptStr(1, b.orgId) + OptStr(2, b.question), OptInt32(3, b.topK), a);
    FoldConcat(RequestApply, OptStr(1, b.orgId), OptStr(2, b.question), a);
    Int32RoundTrip(b.topK);
  }

  lemma FoldSource(a: RagSource, b: RagSource)
    ensures Fold(SourceApply, SourceFields(b), a) == MergeSource(a, b)
  {
    FoldConcat(SourceApply, OptStr(1, b.knowledgeItemId), OptStr(2, b.title), a);
  }

  lemma FoldChunk(a: RagChunk, b: RagChunk)
    ensures Fold(ChunkApply, ChunkFields(b), a) == MergeChunk(a, b)
  {
    var w, x, y, z := OptStr(1, b.knowledgeItemId), OptStr(2, b.titleSnapshot), OptStr(3, b.content), ScoreFields(b.score);
    FoldConcat(ChunkApply, w + x + y, z, a);
    FoldConcat(ChunkApply, w + x, y, a);
    FoldConcat(ChunkApply, w, x, a);
  }

  lemma SourceFieldsAreGood(m: RagSource)
    requires SourceFits(m)
    ensures forall f <- SourceFields(m) :: ValidField(f)
  {
  }

  lemma ChunkFieldsAreGood(m: RagChunk)
    requires ChunkFits(m)
    ensures forall f <- ChunkFields(m) :: ValidField(f)
  {
  }

  lemma SourceRoundTrip(m: RagSource)
    requires SourceFits(m)
    ensures ParseSource(EncodeFields(SourceFields(m))) == Ok(m)
  {
    SourceRealised();
    SourceFieldsAreGood(m);
    DecodeAllIsFold(SourceArm, SourceApply, ValidField, SourceFields(m), BASE_SOURCE);
    FoldSource(BASE_SOURCE, m);
  }

  /** A chunk survives the round trip exactly when its score is not a negative zero. */
  lemma ChunkRoundTrip(m: RagChunk)
    requires ChunkFits(m)
    ensures ParseChunk(EncodeFields(ChunkFields(m))) == Ok(Normal(m))
    ensures ParseChunk(EncodeFields(ChunkFields(m))) == Ok(m) <==> m.score != [0, 0, 0, 0, 0, 0, 0, 128]
  {
    ChunkRealised();
    ChunkFieldsAreGood(m);
    DecodeAllIsFold(ChunkArm, ChunkApply, ValidField, ChunkFields(m), BASE_CHUNK);
    FoldChunk(BASE_CHUNK, m);
    assert ZERO[7] != NEG_ZERO[7];
  }

  lemma SourceApplied(s: RagSource, m: RagQueryResponse)
    requires SourceFits(s)
    ensures ResponseApply(m, Field(3, Len(EncodeFields(SourceFields(s))))) == m.(sources := m.sources + [s])
  {
    SourceRoundTrip(s);
  }

  lemma {:induction false} FoldSources(ss: seq<RagSource>, m: RagQueryResponse)
    requires forall s <- ss :: SourceFits(s)
    ensures Fold(ResponseApply, SourcesFields(ss), m) == m.(sources := m.sources + ss)
    decreases |ss|
  {
    if ss == [] {
      assert m.sources + ss == m.sources;
    } else {
      var next := m.(sources := m.sources + [ss[0]]);
      SourceApplied(ss[0], m);
      assert SourcesFields(ss)[1..] == SourcesFields(ss[1..]);
      FoldSources(ss[1..], next);
      Regroup(m.sources, [ss[0]], ss[1..]);
      assert [ss[0]] + ss[1..] == ss;
      assert Fold(ResponseApply, SourcesFields(ss), m) == Fold(ResponseApply, SourcesFields(ss[1..]), next);
    }
  }

  lemma ChunkApplied(c: RagChunk, m: RagQueryResponse)
    requires ChunkFits(c)
    ensures ResponseApply(m, Field(4, Len(EncodeFields(ChunkFields(c))))) == m.(chunks := m.chunks + [Normal(c)])
  {
    ChunkRoundTrip(c);
  }

  lemma ChunksSplit(cs: seq<RagChunk>)
    requires cs != []
    ensures ChunksFields(cs)[1..] == ChunksFields(cs[1..])
  {
  }

  lemma NormalSplit(cs: seq<RagChunk>)
    requires cs != []
    ensures [Normal(cs[0])] + NormalChunks(cs[1..]) == NormalChunks(cs)
  {
  }

  lemma {:induction false} FoldChunks(cs: seq<RagChunk>, m: RagQueryResponse)
    requires forall c <- cs :: ChunkFits(c)
    ensures Fold(ResponseApply, ChunksFields(cs), m) == m.(chunks := m.chunks + NormalChunks(cs))
    decreases |cs|
  {
    if cs == [] {
      assert m.chunks + NormalChunks(cs) == m.chunks;
    } else {
      var next := m.(chunks := m.chunks + [Normal(cs[0])]);
      ChunkApplied(cs[0], m);
      ChunksSplit(cs);
      NormalSplit(cs);
      FoldChunks(cs[1..], next);
      Regroup(m.chunks, [Normal(cs[0])], NormalChunks(cs[1..]));
      assert Fold(ResponseApply, ChunksFields(cs), m) == Fold(ResponseApply, ChunksFields(cs[1..]), next);
    }
  }

  lemma FoldResponse(a: RagQueryResponse, b: RagQueryResponse)
    requires ResponseFits(b)
    ensures Fold(ResponseApply, ResponseFields(b), a) == MergeResponse(a, b)
  {
    var w, x, y, z := OptInt32(1, b.outcome), OptStr(2, b.summary), SourcesFields(b.sources), ChunksFields(b.chunks);
    FoldConcat(ResponseApply, w + x + y, z, a);
    FoldConcat(ResponseApply, w + x, y, a);
    FoldConcat(ResponseApply, w, x, a);
    Int32RoundTrip(b.outcome);
    var a1 := a.(outcome := LastInt32(a.outcome, b.outcome));
    assert Fold(ResponseApply, w, a) == a1;
    var a2 := a1.(summary := LastStr(a.summary, b.summary));
    assert Fold(ResponseApply, x, a1) == a2;
    FoldSources(b.sources, a2);
    FoldChunks(b.chunks, a2.(sources := a2.sources + b.sources));
  }

  lemma SourceIsGood(s: RagSource)
    requires SourceFits(s) && |EncodeFields(SourceFields(s))| < TWO32
    ensures ResponseGood(Field(3, Len(EncodeFields(SourceFields(s))))) && ResponseMeans(Field(3, Len(EncodeFields(SourceFields(s)))))
  {
    SourceFieldsAreGood(s);
  }

  lemma ChunkIsGood(c: RagChunk)
    requires ChunkFits(c) && |EncodeFields(ChunkFields(c))| < TWO32
    ensures ResponseGood(Field(4, Len(EncodeFields(ChunkFields(c))))) && ResponseMeans(Field(4, Len(EncodeFields(ChunkFields(c)))))
  {
    ChunkFieldsAreGood(c);
  }

  lemma NestedAreGood(m: RagQueryResponse)
    requires ResponseFits(m)
    ensures forall f <- SourcesFields(m.sources) + ChunksFields(m.chunks) :: ResponseGood(f) && ResponseMeans(f)
  {
    forall i | 0 <= i < |m.sources|
      ensures ResponseGood(SourcesFields(m.sources)[i]) && ResponseMeans(SourcesFields(m.sources)[i])
    {
      assert m.sources[i] in m.sources;
      SourceIsGood(m.sources[i]);
    }
    forall i | 0 <= i < |m.chunks|
      ensures ResponseGood(ChunksFields(m.chunks)[i]) && ResponseMeans(ChunksFields(m.chunks)[i])
    {
      assert m.chunks[i] in m.chunks;
      ChunkIsGood(m.chunks[i]);
    }
  }

  lemma ResponseFieldsAreGood(m: RagQueryResponse)
    requires ResponseFits(m)
    ensures forall f <- ResponseFields(m) :: ResponseGood(f) && ResponseMeans(f)
  {
    NestedAreGood(m);
    Int32RoundTrip(m.outcome);
  }

  predicate RequestMeans(f: Field) {
    match f.payload
    case Varint(_) => f.num == 3
    case Len(_) => 1 <= f.num <= 2
    case _ => false
  }

  predicate ResponseMeans(f: Field) {
    match f.payload
    case Varint(_) => f.num == 1
    case Len(_) => 2 <= f.num <= 4
    case _ => false
  }

  predicate SourceMeans(f: Field) {
    f.payload.Len? && 1 <= f.num <= 2
  }

  predicate ChunkMeans(f: Field) {
    match f.payload
    case Len(_) => 1 <= f.num <= 3
    case Fixed64(_) => f.num == 4
    case _ => false
  }

  // Fields that carry an unknown number or an unexpected wire type, groups included, may stand
  // anywhere: whatever valid fields there are, parsing them is parsing those that mean something.

  lemma RequestIgnores(fs: seq<Field>)
    requires forall f <- fs :: ValidField(f)
    ensures ParseRequest(EncodeFields(fs)) == Ok(Fold(RequestApply, Meaningful(RequestMeans, fs), BASE_REQUEST))
    ensures ParseRequest(EncodeFields(fs)) == ParseRequest(EncodeFields(Meaningful(RequestMeans, fs)))
  {
    RequestRealised();
    DecodeAllIsFold(RequestArm, RequestApply, ValidField, fs, BASE_REQUEST);
    FoldIgnores(RequestApply, RequestMeans, fs, BASE_REQUEST);
    DecodeAllIsFold(RequestArm, RequestApply, ValidField, Meaningful(RequestMeans, fs), BASE_REQUEST);
  }

  lemma SourceIgnores(fs: seq<Field>)
    requires forall f <- fs :: ValidField(f)
    ensures ParseSource(EncodeFields(fs)) == Ok(Fold(SourceApply, Meaningful(SourceMeans, fs), BASE_SOURCE))
    ensures ParseSource(EncodeFields(fs)) == ParseSource(EncodeFields(Meaningful(SourceMeans, fs)))
  {
    SourceRealised();
    DecodeAllIsFold(SourceArm, SourceApply, ValidField, fs, BASE_SOURCE);
    FoldIgnores(SourceApply, SourceMeans, fs, BASE_SOURCE);
    DecodeAllIsFold(SourceArm, SourceApply, ValidField, Meaningful(SourceMeans, fs), BASE_SOURCE);
  }

  lemma ChunkIgnores(fs: seq<Field>)
    requires forall f <- fs :: ValidField(f)
    ensures ParseChunk(EncodeFields(fs)) == Ok(Fold(ChunkApply, Meaningful(ChunkMeans, fs), BASE_CHUNK))
    ensures ParseChunk(EncodeFields(fs)) == ParseChunk(EncodeFields(Meaningful(ChunkMeans, fs)))
  {
    ChunkRealised();
    DecodeAllIsFold(ChunkArm, ChunkApply, ValidField, fs, BASE_CHUNK);
    FoldIgnores(ChunkApply, ChunkMeans, fs, BASE_CHUNK);
    DecodeAllIsFold(ChunkArm, ChunkApply, ValidField, Meaningful(ChunkMeans, fs), BASE_CHUNK);
  }

  /** The same source, or chunk, but for stray fields. */
  ghost predicate SameSource(a: seq<byte>, b: seq<byte>) {
    exists xs, ys :: a == EncodeFields(xs) && b == EncodeFields(ys) && SameMeaning(SourceMeans, xs, ys)
  }

  ghost predicate SameChunk(a: seq<byte>, b: seq<byte>) {
    exists xs, ys :: a == EncodeFields(xs) && b == EncodeFields(ys) && SameMeaning(ChunkMeans, xs, ys)
  }

  predicate SameMeaning(means: Field -> bool, xs: seq<Field>, ys: seq<Field>) {
    && (forall f <- xs :: ValidField(f)) && (forall f <- ys :: ValidField(f))
    && Meaningful(means, xs) == Meaningful(means, ys)
  }

  lemma SameSourceParses(a: seq<byte>, b: seq<byte>)
    requires SameSource(a, b)
    ensures ParseSource(a) == ParseSource(b)
  {
    var xs, ys :| a == EncodeFields(xs) && b == EncodeFields(ys) && SameMeaning(SourceMeans, xs, ys);
    SourceIgnores(xs);
    SourceIgnores(ys);
  }

  lemma SameChunkParses(a: seq<byte>, b: seq<byte>)
    requires SameChunk(a, b)
    ensures ParseChunk(a) == ParseChunk(b)
  {
    var xs, ys :| a == EncodeFields(xs) && b == EncodeFields(ys) && SameMeaning(ChunkMeans, xs, ys);
    ChunkIgnores(xs);
    ChunkIgnores(ys);
  }

  /** The same field of a response, but for stray fields inside its nested message. */
  ghost predicate SameField(f: Field, g: Field) {
    || f == g
    || (f.num == 3 && g.num == 3 && f.payload.Len? && g.payload.Len? && SameSource(f.payload.bytes, g.payload.bytes))
    || (f.num == 4 && g.num == 4 && f.payload.Len? && g.payload.Len? && SameChunk(f.payload.bytes, g.payload.bytes))
  }

  ghost predicate SameFields(fs: seq<Field>, gs: seq<Field>) {
    |fs| == |gs| && forall i :: 0 <= i < |fs| ==> SameField(fs[i], gs[i])
  }

  lemma SameFieldApplies(m: RagQueryResponse, f: Field, g: Field)
    requires SameField(f, g)
    ensures ResponseApply(m, f) == ResponseApply(m, g)
  {
    if f != g {
      if f.num == 3 {
        SameSourceParses(f.payload.bytes, g.payload.bytes);
      } else {
        SameChunkParses(f.payload.bytes, g.payload.bytes);
      }
    }
  }

  lemma {:induction false} SameFieldsFold(fs: seq<Field>, gs: seq<Field>, m: RagQueryResponse)
    requires SameFields(fs, gs)
    ensures Fold(ResponseApply, fs, m) == Fold(ResponseApply, gs, m)
    decreases |fs|
  {
    if fs != [] {
      SameFieldApplies(m, fs[0], gs[0]);
      assert SameFields(fs[1..], gs[1..]);
      SameFieldsFold(fs[1..], gs[1..], ResponseApply(m, fs[0]));
    }
  }

  lemma ResponseFolds(fs: seq<Field>)
    requires forall f <- fs :: ResponseGood(f)
    ensures ParseResponse(EncodeFields(fs)) == Ok(Fold(ResponseApply, Meaningful(ResponseMeans, fs), BASE_RESPONSE))
  {
    ResponseRealised();
    DecodeAllIsFold(ResponseArm, ResponseApply, ResponseGood, fs, BASE_RESPONSE);
    FoldIgnores(ResponseApply, ResponseMeans, fs, BASE_RESPONSE);
  }

  /** For a response at both levels: stray fields may stand between its own fields and inside
      any nested source or chunk. */
  lemma ResponseIgnores(fs: seq<Field>, gs: seq<Field>)
    requires (forall f <- fs :: ResponseGood(f)) && (forall g <- gs :: ResponseGood(g))
    requires SameFields(Meaningful(ResponseMeans, fs), Meaningful(ResponseMeans, gs))
    ensures ParseResponse(EncodeFields(fs)).Ok? && ParseResponse(EncodeFields(fs)) == ParseResponse(EncodeFields(gs))
  {
    ResponseFolds(fs);
    ResponseFolds(gs);
    SameFieldsFold(Meaningful(ResponseMeans, fs), Meaningful(ResponseMeans, gs), BASE_RESPONSE);
  }

  /** So what two encoders wrote, one after the other, with any stray fields between decodes to
      the merge of the two messages. */
  lemma RequestTolerantMerge(a: RagQueryRequest, b: RagQueryRequest, fs: seq<Field>)
    requires forall f <- fs :: ValidField(f)
    requires Meaningful(RequestMeans, fs) == RequestFields(a) + RequestFields(b)
    ensures ParseRequest(EncodeFields(fs)) == Ok(MergeRequest(a, b))
  {
    RequestIgnores(fs);
    FoldConcat(RequestApply, RequestFields(a), RequestFields(b), BASE_REQUEST);
    FoldRequest(BASE_REQUEST, a);
    FoldRequest(a, b);
  }

  lemma SourceTolerantMerge(a: RagSource, b: RagSource, fs: seq<Field>)
    requires forall f <- fs :: ValidField(f)
    requires Meaningful(SourceMeans, fs) == SourceFields(a) + SourceFields(b)
    ensures ParseSource(EncodeFields(fs)) == Ok(MergeSource(a, b))
  {
    SourceIgnores(fs);
    FoldConcat(SourceApply, SourceFields(a), SourceFields(b), BASE_SOURCE);
    FoldSource(BASE_SOURCE, a);
    FoldSource(a, b);
  }

  lemma ChunkTolerantMerge(a: RagChunk, b: RagChunk, fs: seq<Field>)
    requires forall f <- fs :: ValidField(f)
    requires Meaningful(ChunkMeans, fs) == ChunkFields(a) + ChunkFields(b)
    ensures ParseChunk(EncodeFields(fs)) == Ok(MergeChunk(MergeChunk(BASE_CHUNK, a), b))
  {
    ChunkIgnores(fs);
    FoldConcat(ChunkApply, ChunkFields(a), ChunkFields(b), BASE_CHUNK);
    FoldChunk(BASE_CHUNK, a);
    FoldChunk(MergeChunk(BASE_CHUNK, a), b);
  }

  lemma ResponseTolerantMerge(a: RagQueryResponse, b: RagQueryResponse, fs: seq<Field>)
    requires ResponseFits(a) && ResponseFits(b)
    requires forall f <- fs :: ResponseGood(f)
    requires SameFields(Meaningful(ResponseMeans, fs), ResponseFields(a) + ResponseFields(b))
    ensures ParseResponse(EncodeFields(fs)) == Ok(MergeResponse(MergeResponse(BASE_RESPONSE, a), b))
  {
    ResponseFolds(fs);
    SameFieldsFold(Meaningful(ResponseMeans, fs), ResponseFields(a) + ResponseFields(b), BASE_RESPONSE);
    FoldConcat(ResponseApply, ResponseFields(a), ResponseFields(b), BASE_RESPONSE);
    FoldResponse(BASE_RESPONSE, a);
    FoldResponse(MergeResponse(BASE_RESPONSE, a), b);
  }

  /** The bytes of two encodings, one after the other, decode to the merge of the messages. */
  lemma ResponseMerge(a: RagQueryResponse, b: RagQueryResponse)
    requires ResponseFits(a) && ResponseFits(b)
    ensures ParseResponse(EncodeFields(ResponseFields(a)) + EncodeFields(ResponseFields(b)))
         == Ok(MergeResponse(MergeResponse(BASE_RESPONSE, a), b))
  {
    var fs := ResponseFields(a) + ResponseFields(b);
    ResponseFieldsAreGood(a);
    ResponseFieldsAreGood(b);
    AllMeaningful(ResponseMeans, fs);
    assert SameFields(fs, fs);
    ResponseTolerantMerge(a, b, fs);
    EncodeFieldsConcat(ResponseFields(a), ResponseFields(b));
  }

  lemma RequestFieldsAreGood(m: RagQueryRequest)
    requires RequestFits(m)
    ensures forall f <- RequestFields(m) :: ValidField(f) && RequestMeans(f)
  {
    Int32RoundTrip(m.topK);
  }

  lemma RequestRoundTrip(m: RagQueryRequest)
    requires RequestFits(m)
    ensures ParseRequest(EncodeFields(RequestFields(m))) == Ok(m)
  {
    RequestFieldsAreGood(m);
    AllMeaningful(RequestMeans, RequestFields(m));
    assert RequestFields(BASE_REQUEST) == [];
    assert [] + RequestFields(m) == RequestFields(m);
    RequestTolerantMerge(BASE_REQUEST, m, RequestFields(m));
  }

  /** A response survives the round trip, nested messages and negative enum numbers included,
      exactly when no chunk's score is a negative zero. */
  lemma ResponseRoundTrip(m: RagQueryResponse)
    requires ResponseFits(m)
    ensures ParseResponse(EncodeFields(ResponseFields(m))) == Ok(m.(chunks := NormalChunks(m.chunks)))
    ensures ParseResponse(EncodeFields(ResponseFields(m))) == Ok(m) <==> forall c <- m.chunks :: c.score != [0, 0, 0, 0, 0, 0, 0, 128]
  {
    ResponseMerge(BASE_RESPONSE, m);
    assert ResponseFields(BASE_RESPONSE) == [];
    assert [] + EncodeFields(ResponseFields(m)) == EncodeFields(ResponseFields(m));
    assert MergeResponse(BASE_RESPONSE, BASE_RESPONSE) == BASE_RESPONSE;
    assert [] + m.sources == m.sources && [] + NormalChunks(m.chunks) == NormalChunks(m.chunks);
    assert ZERO[7] != NEG_ZERO[7];
    assert NormalChunks(m.chunks) == m.chunks <==> forall i :: 0 <= i < |m.chunks| ==> Normal(m.chunks[i]) == m.chunks[i];
  }
}
