/** The messages of `grpc/membership.ts`. */
module MembershipCodec {
  import opened Basics
  import opened Wire

  datatype CheckMembershipRequest = CheckMembershipRequest(orgId: seq<byte>, userId: seq<byte>)

  datatype CheckMembershipResponse = CheckMembershipResponse(isMember: bool, permissions: seq<seq<byte>>, role: seq<byte>)

  const BASE_REQUEST := CheckMembershipRequest([], [])
  const BASE_RESPONSE := CheckMembershipResponse(false, [], [])

  // ---------------------------------------------------------------- what encoders write

  function RequestFields(m: CheckMembershipRequest): seq<Field> {
    OptStr(1, m.orgId) + OptStr(2, m.userId)
  }

  function MemberFields(isMember: bool): seq<Field> {
    if isMember then [Field(1, Varint(1))] else []
  }

  function PermissionFields(ps: seq<seq<byte>>): seq<Field> {
    seq(|ps|, i requires 0 <= i < |ps| => Field(2, Len(ps[i])))
  }

  function ResponseFields(m: CheckMembershipResponse): seq<Field> {
    MemberFields(m.isMember) + PermissionFields(m.permissions) + OptStr(3, m.role)
  }

  /** The writer's length prefix is a uint32. */
  predicate RequestFits(m: CheckMembershipRequest) {
    |m.orgId| < TWO32 && |m.userId| < TWO32
  }

  predicate ResponseFits(m: CheckMembershipResponse) {
    (forall p <- m.permissions :: |p| < TWO32) && |m.role| < TWO32
  }

  method EncodeRequest(m: CheckMembershipRequest, w: Writer)
    modifies w
    ensures w.buf == old(w.buf) + EncodeFields(RequestFields(m)) && w.stack == old(w.stack)
  {
    WriteOptStr(w, 1, m.orgId);
    WriteOptStr(w, 2, m.userId);
    WroteMore(w.buf, old(w.buf), OptStr(1, m.orgId), OptStr(2, m.userId));
  }

  method EncodeResponse(m: CheckMembershipResponse, w: Writer)
    modifies w
    ensures w.buf == old(w.buf) + EncodeFields(ResponseFields(m)) && w.stack == old(w.stack)
  {
    ghost var before, head, fields := w.buf, MemberFields(m.isMember), PermissionFields(m.permissions);
    if m.isMember {
      WriteVarintField(w, 1, 1);
    }
    for i := 0 to |m.permissions|
      invariant w.buf == before + EncodeFields(head + fields[..i]) && w.stack == old(w.stack)
    {
      WriteStrField(w, 2, m.permissions[i]);
      OneField(fields[i]);
      WroteMore(w.buf, before, head + fields[..i], [fields[i]]);
      assert head + fields[..i] + [fields[i]] == head + fields[..i + 1];
    }
    assert fields[..|m.permissions|] == fields;
    WriteOptStr(w, 3, m.role);
    WroteMore(w.buf, before, head + fields, OptStr(3, m.role));
  }

  // The bytes themselves, under the tags that other implementations of the schema use.

  lemma RequestBytes(m: CheckMembershipRequest)
    ensures EncodeFields(RequestFields(m)) == OptTagged(10, m.orgId) + OptTagged(18, m.userId)
  {
    EncodeFieldsConcat(OptStr(1, m.orgId), OptStr(2, m.userId));
    OptStrBytes(1, m.orgId);
    OptStrBytes(2, m.userId);
  }

  lemma {:induction false} PermissionBytes(ps: seq<seq<byte>>)
    ensures EncodeFields(PermissionFields(ps)) == AllTagged(18, ps)
    decreases |ps|
  {
    if ps != [] {
      PermissionBytes(ps[1..]);
      assert PermissionFields(ps)[1..] == PermissionFields(ps[1..]);
      TaggedBytes(2, ps[0]);
    }
  }

  lemma ResponseBytes(m: CheckMembershipResponse)
    ensures EncodeFields(ResponseFields(m)) == (if m.isMember then [8, 1] else []) + AllTagged(18, m.permissions) + OptTagged(26, m.role)
  {
    var x, y, z := MemberFields(m.isMember), PermissionFields(m.permissions), OptStr(3, m.role);
    EncodeFieldsConcat(x + y, z);
    EncodeFieldsConcat(x, y);
    if m.isMember { OneField(Field(1, Varint(1))); }
    PermissionBytes(m.permissions);
    OptStrBytes(3, m.role);
  }

  // ---------------------------------------------------------------- what decoders read

  function RequestArm(m: CheckMembershipRequest, tag: nat, s: seq<byte>): Arm<CheckMembershipRequest> {
    match tag / 8
    case 1 => if tag != 10 then NotMine else TakeStr(s, v => m.(orgId := v))
    case 2 => if tag != 18 then NotMine else TakeStr(s, v => m.(userId := v))
    case _ => NotMine
  }

  function ResponseArm(m: CheckMembershipResponse, tag: nat, s: seq<byte>): Arm<CheckMembershipResponse> {
    match tag / 8
    case 1 =>
      if tag != 8 then NotMine
      else (match ReadVarint(s, 10)
            case Err => Threw
            case Ok((v, rest)) => Took(m.(isMember := v % TWO64 != 0), rest))
    case 2 => if tag != 18 then NotMine else TakeStr(s, v => m.(permissions := m.permissions + [v]))
    case 3 => if tag != 26 then NotMine else TakeStr(s, v => m.(role := v))
    case _ => NotMine
  }

  ghost function ParseRequest(s: seq<byte>): Result<CheckMembershipRequest> {
    RequestRealised();
    DecodeAll(RequestArm, s, BASE_REQUEST)
  }

  ghost function ParseResponse(s: seq<byte>): Result<CheckMembershipResponse> {
    ResponseRealised();
    DecodeAll(ResponseArm, s, BASE_RESPONSE)
  }

  /** The loop of `decode` from the middle: what is left of the window decides. */
  ghost function RequestLoop(s: seq<byte>, tail: int, m: CheckMembershipRequest): Result<(CheckMembershipRequest, seq<byte>)> {
    RequestRealised();
    DecodeLoop(RequestArm, s, tail, m)
  }

  ghost function ResponseLoop(s: seq<byte>, tail: int, m: CheckMembershipResponse): Result<(CheckMembershipResponse, seq<byte>)> {
    ResponseRealised();
    DecodeLoop(ResponseArm, s, tail, m)
  }

  /** Without a length the window is the whole input. */
  method DecodeRequest(reader: Reader, length: Option<nat>) returns (r: Result<CheckMembershipRequest>)
    modifies reader
    ensures var tail := if length.None? then 0 else old(|reader.rest|) - length.value;
            match RequestLoop(old(reader.rest), tail, BASE_REQUEST)
            case Err => r.Err?
            case Ok((m, left)) => r == Ok(m) && reader.rest == left
  {
    var end := if length.None? then reader.len else reader.Pos() + length.value;
    ghost var tail := reader.len - end;
    var message := BASE_REQUEST;
    while reader.Pos() < end
      invariant RequestLoop(reader.rest, tail, message) == RequestLoop(old(reader.rest), tail, BASE_REQUEST)
      decreases |reader.rest|
    {
      var tag := reader.Uint32();
      if tag.Err? {
        return Err;
      }
      match tag.value / 8 {
        case 1 =>
          if tag.value == 10 {
            var v := reader.Str();
            if v.Err? {
              return Err;
            }
            message := message.(orgId := v.value);
            continue;
          }
        case 2 =>
          if tag.value == 18 {
            var v := reader.Str();
            if v.Err? {
              return Err;
            }
            message := message.(userId := v.value);
            continue;
          }
        case _ =>
      }
      if tag.value % 8 == 4 || tag.value == 0 {
        break;
      }
      var skipped := reader.SkipType(tag.value % 8);
      if skipped.Err? {
        return Err;
      }
    }
    r := Ok(message);
  }

  method DecodeResponse(reader: Reader, length: Option<nat>) returns (r: Result<CheckMembershipResponse>)
    modifies reader
    ensures var tail := if length.None? then 0 else old(|reader.rest|) - length.value;
            match ResponseLoop(old(reader.rest), tail, BASE_RESPONSE)
            case Err => r.Err?
            case Ok((m, left)) => r == Ok(m) && reader.rest == left
  {
    var end := if length.None? then reader.len else reader.Pos() + length.value;
    ghost var tail := reader.len - end;
    var message := BASE_RESPONSE;
    while reader.Pos() < end
      invariant ResponseLoop(reader.rest, tail, message) == ResponseLoop(old(reader.rest), tail, BASE_RESPONSE)
      decreases |reader.rest|
    {
      var tag := reader.Uint32();
      if tag.Err? {
        return Err;
      }
      match tag.value / 8 {
        case 1 =>
          if tag.value == 8 {
            var v := reader.Bool();
            if v.Err? {
              return Err;
            }
            message := message.(isMember := v.value);
            continue;
          }
        case 2 =>
          if tag.value == 18 {
            var v := reader.Str();
            if v.Err? {
              return Err;
            }
            message := message.(permissions := message.permissions + [v.value]);
            continue;
          }
        case 3 =>
          if tag.value == 26 {
            var v := reader.Str();
            if v.Err? {
              return Err;
            }
            message := message.(role := v.value);
            continue;
          }
        case _ =>
      }
      if tag.value % 8 == 4 || tag.value == 0 {
        break;
      }
      var skipped := reader.SkipType(tag.value % 8);
      if skipped.Err? {
        return Err;
      }
    }
    r := Ok(message);
  }

  // ---------------------------------------------------------------- what fields mean

  function RequestApply(m: CheckMembershipRequest, f: Field): CheckMembershipRequest {
    match f
    case Field(1, Len(v)) => m.(orgId := v)
    case Field(2, Len(v)) => m.(userId := v)
    case _ => m
  }

  function ResponseApply(m: CheckMembershipResponse, f: Field): CheckMembershipResponse {
    match f
    case Field(1, Varint(v)) => m.(isMember := v % TWO64 != 0)
    case Field(2, Len(v)) => m.(permissions := m.permissions + [v])
    case Field(3, Len(v)) => m.(role := v)
    case _ => m
  }

  lemma RequestRealised()
    ensures Consuming(RequestArm) && Realises(RequestArm, RequestApply, ValidField)
  {
    forall m: CheckMembershipRequest, f, rest | ValidField(f)
      ensures match RequestArm(m, Tag(f), EncodePayload(f.num, f.payload) + rest)
              case Took(m', rest') => m' == RequestApply(m, f) && rest' == rest
              case NotMine => m == RequestApply(m, f)
              case Threw => false
    {
      TagParts(f);
      if f.payload.Len? { ReadLenRoundTrip(f.payload.bytes, rest); }
    }
  }

  lemma ResponseRealised()
    ensures Consuming(ResponseArm) && Realises(ResponseArm, ResponseApply, ValidField)
  {
    forall m: CheckMembershipResponse, f, rest | ValidField(f)
      ensures match ResponseArm(m, Tag(f), EncodePayload(f.num, f.payload) + rest)
              case Took(m', rest') => m' == ResponseApply(m, f) && rest' == rest
              case NotMine => m == ResponseApply(m, f)
              case Threw => false
    {
      TagParts(f);
      if f.payload.Len? { ReadLenRoundTrip(f.payload.bytes, rest); }
      if f.payload.Varint? { TenGroups(); VarintRoundTrip(f.payload.v, rest, 10); }
    }
  }

  // ---------------------------------------------------------------- merging and round trips

  function MergeRequest(a: CheckMembershipRequest, b: CheckMembershipRequest): CheckMembershipRequest {
    CheckMembershipRequest(LastStr(a.orgId, b.orgId), LastStr(a.userId, b.userId))
  }

  function MergeResponse(a: CheckMembershipResponse, b: CheckMembershipResponse): CheckMembershipResponse {
    CheckMembershipResponse(a.isMember || b.isMember, a.permissions + b.permissions, LastStr(a.role, b.role))
  }

  lemma FoldRequest(a: CheckMembershipRequest, b: CheckMembershipRequest)
    ensures Fold(RequestApply, RequestFields(b), a) == MergeRequest(a, b)
  {
    FoldConcat(RequestApply, OptStr(1, b.orgId), OptStr(2, b.userId), a);
  }

  lemma {:induction false} FoldPermissions(ps: seq<seq<byte>>, m: CheckMembershipResponse)
    ensures Fold(ResponseApply, PermissionFields(ps), m) == m.(permissions := m.permissions + ps)
    decreases |ps|
  {
    if ps == [] {
      assert m.permissions + ps == m.permissions;
    } else {
      assert PermissionFields(ps)[1..] == PermissionFields(ps[1..]);
      FoldPermissions(ps[1..], m.(permissions := m.permissions + [ps[0]]));
      assert m.permissions + [ps[0]] + ps[1..] == m.permissions + ps;
    }
  }

  lemma FoldResponse(a: CheckMembershipResponse, b: CheckMembershipResponse)
    ensures Fold(ResponseApply, ResponseFields(b), a) == MergeResponse(a, b)
  {
    var x := MemberFields(b.isMember);
    var y, z := PermissionFields(b.permissions), OptStr(3, b.role);
    var a1 := a.(isMember := a.isMember || b.isMember);
    FoldConcat(ResponseApply, x + y, z, a);
    FoldConcat(ResponseApply, x, y, a);
    assert Fold(ResponseApply, x, a) == a1;
    FoldPermissions(b.permissions, a1);
  }

  predicate RequestMeans(f: Field) {
    f.payload.Len? && 1 <= f.num <= 2
  }

  predicate ResponseMeans(f: Field) {
    match f.payload
    case Varint(_) => f.num == 1
    case Len(_) => 2 <= f.num <= 3
    case _ => false
  }

  // Fields that carry an unknown number or an unexpected wire type may stand anywhere: whatever
  // valid fields there are, parsing them is parsing those that mean something.

  lemma RequestIgnores(fs: seq<Field>)
    requires forall f <- fs :: ValidField(f)
    ensures ParseRequest(EncodeFields(fs)) == Ok(Fold(RequestApply, Meaningful(RequestMeans, fs), BASE_REQUEST))
    ensures ParseRequest(EncodeFields(fs)) == ParseRequest(EncodeFields(Meaningful(RequestMeans, fs)))
  {
    RequestRealised();
    DecodeAllIsFold(RequestArm, RequestApply, ValidField, fs, BASE_REQUEST);
    FoldIgnores(RequestApply, RequestMeans, fs, BASE_REQUEST);
    DecodeAllIsFold(RequestArm, RequestApply, ValidField, Meaningful(RequestMeans, fs), BASE_REQUEST);
  }

  lemma ResponseIgnores(fs: seq<Field>)
    requires forall f <- fs :: ValidField(f)
    ensures ParseResponse(EncodeFields(fs)) == Ok(Fold(ResponseApply, Meaningful(ResponseMeans, fs), BASE_RESPONSE))
    ensures ParseResponse(EncodeFields(fs)) == ParseResponse(EncodeFields(Meaningful(ResponseMeans, fs)))
  {
    ResponseRealised();
    DecodeAllIsFold(ResponseArm, ResponseApply, ValidField, fs, BASE_RESPONSE);
    FoldIgnores(ResponseApply, ResponseMeans, fs, BASE_RESPONSE);
    DecodeAllIsFold(ResponseArm, ResponseApply, ValidField, Meaningful(ResponseMeans, fs), BASE_RESPONSE);
  }

  /** So what two encoders wrote, one after the other, with any stray fields between decodes to
      the merge of the two messages. */
  lemma RequestTolerantMerge(a: CheckMembershipRequest, b: CheckMembershipRequest, fs: seq<Field>)
    requires forall f <- fs :: ValidField(f)
    requires Meaningful(RequestMeans, fs) == RequestFields(a) + RequestFields(b)
    ensures ParseRequest(EncodeFields(fs)) == Ok(MergeRequest(a, b))
  {
    RequestIgnores(fs);
    FoldConcat(RequestApply, RequestFields(a), RequestFields(b), BASE_REQUEST);
    FoldRequest(BASE_REQUEST, a);
    FoldRequest(a, b);
  }

  lemma ResponseTolerantMerge(a: CheckMembershipResponse, b: CheckMembershipResponse, fs: seq<Field>)
    requires forall f <- fs :: ValidField(f)
    requires Meaningful(ResponseMeans, fs) == ResponseFields(a) + ResponseFields(b)
    ensures ParseResponse(EncodeFields(fs)) == Ok(MergeResponse(a, b))
  {
    ResponseIgnores(fs);
    FoldConcat(ResponseApply, ResponseFields(a), ResponseFields(b), BASE_RESPONSE);
    FoldResponse(BASE_RESPONSE, a);
    assert MergeResponse(BASE_RESPONSE, a) == a;
    FoldResponse(a, b);
  }

  lemma RequestFieldsAreGood(m: CheckMembershipRequest)
    requires RequestFits(m)
    ensures forall f <- RequestFields(m) :: ValidField(f) && RequestMeans(f)
  {
  }

  lemma ResponseFieldsAreGood(m: CheckMembershipResponse)
    requires ResponseFits(m)
    ensures forall f <- ResponseFields(m) :: ValidField(f) && ResponseMeans(f)
  {
    forall f | f in PermissionFields(m.permissions)
      ensures ValidField(f) && ResponseMeans(f)
    {
      var i :| 0 <= i < |m.permissions| && f == Field(2, Len(m.permissions[i]));
      assert m.permissions[i] in m.permissions;
    }
  }

  /** The bytes of two encodings, one after the other, decode to the merge of the messages. */
  lemma RequestMerge(a: CheckMembershipRequest, b: CheckMembershipRequest)
    requires RequestFits(a) && RequestFits(b)
    ensures ParseRequest(EncodeFields(RequestFields(a)) + EncodeFields(RequestFields(b))) == Ok(MergeRequest(a, b))
  {
    var fs := RequestFields(a) + RequestFields(b);
    RequestFieldsAreGood(a);
    RequestFieldsAreGood(b);
    AllMeaningful(RequestMeans, fs);
    RequestTolerantMerge(a, b, fs);
    EncodeFieldsConcat(RequestFields(a), RequestFields(b));
  }

  lemma ResponseMerge(a: CheckMembershipResponse, b: CheckMembershipResponse)
    requires ResponseFits(a) && ResponseFits(b)
    ensures ParseResponse(EncodeFields(ResponseFields(a)) + EncodeFields(ResponseFields(b))) == Ok(MergeResponse(a, b))
  {
    var fs := ResponseFields(a) + ResponseFields(b);
    ResponseFieldsAreGood(a);
    ResponseFieldsAreGood(b);
    AllMeaningful(ResponseMeans, fs);
    ResponseTolerantMerge(a, b, fs);
    EncodeFieldsConcat(ResponseFields(a), ResponseFields(b));
  }

  lemma RequestRoundTrip(m: CheckMembershipRequest)
    requires RequestFits(m)
    ensures ParseRequest(EncodeFields(RequestFields(m))) == Ok(m)
  {
    RequestMerge(BASE_REQUEST, m);
    assert EncodeFields(RequestFields(BASE_REQUEST)) == [];
    assert [] + EncodeFields(RequestFields(m)) == EncodeFields(RequestFields(m));
  }

  lemma ResponseRoundTrip(m: CheckMembershipResponse)
    requires ResponseFits(m)
    ensures ParseResponse(EncodeFields(ResponseFields(m))) == Ok(m)
  {
    ResponseMerge(BASE_RESPONSE, m);
    assert ResponseFields(BASE_RESPONSE) == [];
    assert [] + EncodeFields(ResponseFields(m)) == EncodeFields(ResponseFields(m));
    assert [] + m.permissions == m.permissions;
  }
}
