/**
 * The gRPC and Protocol Buffers coding of the native lightwalletd client:
 * base-128 varints, length-prefixed frames, and the three response parsers.
 */
module Wire {
  import opened Common

  datatype WireError = Malformed | MissingHeight

  // ----- Varints

  /** A value read from the front of some bytes, and how many of them it took. */
  datatype Read<+T> = Read(value: T, count: nat)

  function Pow128(k: nat): nat {
    if k == 0 then 1 else 128 * Pow128(k - 1)
  }

  function Encode(value: nat): Bytes {
    if value < 128 then [value] else [value % 128 + 128] + Encode(value / 128)
  }

  /** The seven bits of group `k` in place; bits shifted beyond the 64th are lost. */
  function Group(byte: Byte, k: nat): nat {
    byte % 128 * Pow128(k) % TWO_64
  }

  /** `readVarint` from its `k`-th group on: at most ten groups are read, and groups never overlap. */
  function VarintFrom(data: Bytes, k: nat): (r: Option<Read<nat>>)
    ensures r.Some? ==> 0 < r.value.count <= |data|
    decreases |data|
  {
    if data == [] || k > 9 then None
    else if data[0] < 128 then Some(Read(Group(data[0], k), 1))
    else
      match VarintFrom(data[1..], k + 1)
      case None => None
      case Some(r) => Some(Read(Group(data[0], k) + r.value, r.count + 1))
  }

  function Varint(data: Bytes): (r: Option<Read<nat>>)
    ensures r.Some? ==> 0 < r.value.count <= |data|
  {
    VarintFrom(data, 0)
  }

  lemma PowersOf128()
    ensures Pow128(0) == 1 && Pow128(1) == 0x80 && Pow128(2) == 0x4000 && Pow128(3) == 0x20_0000
    ensures Pow128(4) == 0x1000_0000 && Pow128(5) == 0x8_0000_0000 && Pow128(6) == 0x400_0000_0000
    ensures Pow128(7) == 0x2_0000_0000_0000 && Pow128(8) == 0x100_0000_0000_0000
    ensures Pow128(9) == 0x8000_0000_0000_0000
  {
    assert Pow128(2) == 0x4000;
    assert Pow128(3) == 0x20_0000;
    assert Pow128(4) == 0x1000_0000;
    assert Pow128(5) == 0x8_0000_0000;
    assert Pow128(6) == 0x400_0000_0000;
    assert Pow128(7) == 0x2_0000_0000_0000;
    assert Pow128(8) == 0x100_0000_0000_0000;
  }

  lemma {:induction false} PowGrows(j: nat, k: nat)
    requires j <= k
    ensures 0 < Pow128(j) <= Pow128(k)
  {
    if j < k {
      PowGrows(j, k - 1);
    } else if j > 0 {
      PowGrows(j - 1, j - 1);
    }
  }

  lemma GroupFits(value: nat, k: nat)
    requires value * Pow128(k) < TWO_64
    ensures value % 128 * Pow128(k) <= value * Pow128(k)
    ensures value >= 128 ==> value / 128 * Pow128(k + 1) < TWO_64
    ensures value * Pow128(k) == value % 128 * Pow128(k) + value / 128 * Pow128(k + 1)
  {
    var p := Pow128(k);
    var q, r := value / 128, value % 128;
    assert value == 128 * q + r;
    calc {
      value * p;
      (128 * q + r) * p;
      128 * q * p + r * p;
      q * (128 * p) + r * p;
    }
    assert q * (128 * p) >= 0 && r * p >= 0;
  }

  /** A value with a group beyond the tenth would not fit in 64 bits. */
  lemma TenGroupsSuffice(value: nat, k: nat)
    requires value >= 1 && value * Pow128(k) < TWO_64
    ensures k <= 9
  {
    assert value * Pow128(k) >= Pow128(k);
    PowersOf128();
    assert Pow128(10) == 128 * Pow128(9);
    if k >= 10 {
      PowGrows(10, k);
    }
  }

  lemma GroupExact(byte: Byte, value: nat, k: nat)
    requires byte % 128 == value % 128 && value * Pow128(k) < TWO_64
    ensures Group(byte, k) == value % 128 * Pow128(k)
  {
    GroupFits(value, k);
    var placed := value % 128 * Pow128(k);
    assert 0 <= placed < TWO_64;
  }

  lemma {:induction false} EncodedGroupsRead(value: nat, k: nat, rest: Bytes)
    requires value * Pow128(k) < TWO_64 && k <= 9
    ensures VarintFrom(Encode(value) + rest, k) == Some(Read(value * Pow128(k), |Encode(value)|))
  {
    hide Group, Pow128;
    var data := Encode(value) + rest;
    GroupFits(value, k);
    if value < 128 {
      assert data[0] == value;
      GroupExact(data[0], value, k);
    } else {
      var tail := Encode(value / 128);
      assert Encode(value) == [value % 128 + 128] + tail && data[1..] == tail + rest;
      GroupExact(data[0], value, k);
      TenGroupsSuffice(value / 128, k + 1);
      EncodedGroupsRead(value / 128, k + 1, rest);
      hide Encode;
    }
  }

  /** Reading undoes encoding for every 64-bit value, and takes exactly the encoded bytes. */
  lemma VarintRoundTrip(value: U64, rest: Bytes)
    ensures Varint(Encode(value) + rest) == Some(Read(value, |Encode(value)|))
    ensures |Encode(value)| <= 10
  {
    EncodedGroupsRead(value, 0, rest);
    EncodedGroupsRead(value, 0, []);
    assert Encode(value) + [] == Encode(value);
    VarintIsShort(Encode(value), 0);
  }

  lemma {:induction false} VarintIsShort(data: Bytes, k: nat)
    requires k <= 10
    ensures VarintFrom(data, k).Some? ==> VarintFrom(data, k).value.count <= 10 - k
    decreases |data|
  {
    if data != [] && k <= 9 {
      VarintIsShort(data[1..], k + 1);
    }
  }

  /** The value stays within 64 bits, whatever bytes arrive: groups from `k` on are a multiple of their place. */
  lemma {:induction false} VarintFits(data: Bytes, k: nat)
    requires k <= 9
    ensures VarintFrom(data, k).Some? ==> VarintFrom(data, k).value.value + Pow128(k) <= TWO_64
    decreases 10 - k
  {
    if data != [] {
      PowersOf128();
      GroupBound(data[0], k);
      if k < 9 {
        assert Pow128(k + 1) == 128 * Pow128(k);
        VarintFits(data[1..], k + 1);
      }
    }
  }

  lemma GroupBound(byte: Byte, k: nat)
    requires k <= 9
    ensures k < 9 ==> Group(byte, k) <= 127 * Pow128(k)
    ensures k == 9 ==> Group(byte, k) <= Pow128(9)
  {
    PowersOf128();
    PowGrows(k, 9);
    if k < 9 {
      PowGrows(k, 8);
      assert byte % 128 * Pow128(k) <= 127 * Pow128(k);
    } else {
      assert byte % 128 * Pow128(9) % TWO_64 == byte % 2 * Pow128(9);
    }
  }

  /** Bytes that follow a varint do not matter to it. */
  lemma {:induction false} VarintPrefix(data: Bytes, rest: Bytes, k: nat)
    requires VarintFrom(data, k).Some?
    ensures VarintFrom(data + rest, k) == VarintFrom(data, k)
    decreases |data|
  {
    assert (data + rest)[0] == data[0] && (data + rest)[1..] == data[1..] + rest;
    if data[0] >= 128 {
      VarintPrefix(data[1..], rest, k + 1);
    }
  }

  // ----- Frames

  const TWO_32: int := 0x1_0000_0000

  function BigEndian32(n: nat): Bytes
    requires n < TWO_32
  {
    [n / 0x100_0000, n / 0x1_0000 % 256, n / 0x100 % 256, n % 256]
  }

  function FromBigEndian(data: Bytes): nat {
    if data == [] then 0 else FromBigEndian(data[..|data| - 1]) * 256 + data[|data| - 1]
  }

  /** `grpcFrame`: no compression, then the length, then the payload. */
  function GrpcFrame(payload: Bytes): Bytes
    requires |payload| < TWO_32
  {
    [0] + BigEndian32(|payload|) + payload
  }

  function GrpcPayload(data: Bytes): Result<Bytes, WireError> {
    if |data| < 5 || data[0] != 0 then Err(Malformed)
    else
      var end := 5 + FromBigEndian(data[1..5]);
      if end <= |data| then Ok(data[5..end]) else Err(Malformed)
  }

  lemma FromBigEndianSnoc(data: Bytes, byte: Byte)
    ensures FromBigEndian(data + [byte]) == FromBigEndian(data) * 256 + byte
  {
    assert (data + [byte])[..|data|] == data;
  }

  lemma BigEndianRoundTrip(n: nat)
    requires n < TWO_32
    ensures FromBigEndian(BigEndian32(n)) == n
  {
    var b := BigEndian32(n);
    FromBigEndianSnoc([], b[0]);
    FromBigEndianSnoc([b[0]], b[1]);
    FromBigEndianSnoc([b[0], b[1]], b[2]);
    FromBigEndianSnoc([b[0], b[1], b[2]], b[3]);
    assert [] + [b[0]] == [b[0]] && [b[0]] + [b[1]] == [b[0], b[1]];
    assert [b[0], b[1]] + [b[2]] == [b[0], b[1], b[2]] && [b[0], b[1], b[2]] + [b[3]] == b;
    hide FromBigEndian;
    FourBytes(n);
  }

  lemma FourBytes(n: nat)
    requires n < TWO_32
    ensures ((n / 0x100_0000 * 256 + n / 0x1_0000 % 256) * 256 + n / 0x100 % 256) * 256 + n % 256 == n
  {
  }

  /** Unframing undoes framing for payloads below 2^32 bytes, whatever follows the frame. */
  lemma FrameRoundTrip(payload: Bytes, rest: Bytes)
    requires |payload| < TWO_32
    ensures GrpcPayload(GrpcFrame(payload) + rest) == Ok(payload)
  {
    var data := GrpcFrame(payload) + rest;
    BigEndianRoundTrip(|payload|);
    assert data[1..5] == BigEndian32(|payload|);
    assert data[5..5 + |payload|] == payload;
  }

  // ----- Fields

  datatype Field =
    | VarintField(number: nat, value: U64)
    | Fixed64Field(number: nat, data: Bytes)
    | BytesField(number: nat, data: Bytes)
    | Fixed32Field(number: nat, data: Bytes)

  const INT_MAX: int := 0x7fff_ffff_ffff_ffff

  /** A length-delimited value: its length as a varint, then that many bytes. */
  function Delimited(data: Bytes): (r: Option<Read<Bytes>>)
    ensures r.Some? ==> 0 < r.value.count <= |data|
  {
    match Varint(data)
    case None => None
    case Some(length) =>
      if length.value <= INT_MAX && length.value <= |data| - length.count
      then Some(Read(data[length.count..length.count + length.value], length.count + length.value))
      else None
  }

  /** The value of a field of the given wire type; types 3, 4, 6 and 7 are not understood. */
  function FieldValue(data: Bytes, number: nat, wireType: nat): (r: Option<Read<Field>>)
    ensures r.Some? ==> 0 < r.value.count <= |data|
  {
    match wireType
    case 0 =>
      (match Varint(data)
       case None => None
       case Some(v) => VarintFits(data, 0); Some(Read(VarintField(number, v.value), v.count)))
    case 1 => if |data| >= 8 then Some(Read(Fixed64Field(number, data[..8]), 8)) else None
    case 2 =>
      (match Delimited(data)
       case None => None
       case Some(b) => Some(Read(BytesField(number, b.value), b.count)))
    case 5 => if |data| >= 4 then Some(Read(Fixed32Field(number, data[..4]), 4)) else None
    case _ => None
  }

  function NextField(data: Bytes): (r: Option<Read<Field>>)
    ensures r.Some? ==> 0 < r.value.count <= |data|
  {
    match Varint(data)
    case None => None
    case Some(key) =>
      match FieldValue(data[key.count..], key.value / 8, key.value % 8)
      case None => None
      case Some(f) => Some(Read(f.value, key.count + f.count))
  }

  /** All fields of a message, or `None` when its bytes are malformed. */
  function Fields(data: Bytes): (r: Option<seq<Field>>)
    decreases |data|
  {
    if data == [] then Some([])
    else
      match NextField(data)
      case None => None
      case Some(f) =>
        match Fields(data[f.count..])
        case None => None
        case Some(rest) => Some([f.value] + rest)
  }

  lemma DelimitedPrefix(data: Bytes, rest: Bytes)
    requires Delimited(data).Some?
    ensures Delimited(data + rest) == Delimited(data)
  {
    VarintPrefix(data, rest, 0);
    var length := Varint(data).value;
    var end := length.count + length.value;
    assert (data + rest)[length.count..end] == data[length.count..end];
  }

  lemma FieldValuePrefix(data: Bytes, rest: Bytes, number: nat, wireType: nat)
    requires FieldValue(data, number, wireType).Some?
    ensures FieldValue(data + rest, number, wireType) == FieldValue(data, number, wireType)
  {
    match wireType {
      case 0 => VarintPrefix(data, rest, 0);
      case 1 => assert (data + rest)[..8] == data[..8];
      case 2 => DelimitedPrefix(data, rest);
      case _ => assert wireType == 5 ==> (data + rest)[..4] == data[..4];
    }
  }

  lemma NextFieldPrefix(data: Bytes, rest: Bytes)
    requires NextField(data).Some?
    ensures NextField(data + rest) == NextField(data)
  {
    VarintPrefix(data, rest, 0);
    var key := Varint(data).value;
    FieldValuePrefix(data[key.count..], rest, key.value / 8, key.value % 8);
    assert (data + rest)[key.count..] == data[key.count..] + rest;
  }

  /** Messages that end on a field boundary can be read one after the other. */
  lemma {:induction false} FieldsAppend(a: Bytes, b: Bytes)
    requires Fields(a).Some?
    ensures Fields(a + b) == if Fields(b).Some? then Some(Fields(a).value + Fields(b).value) else None
    decreases |a|
  {
    hide NextField;
    if a == [] {
      assert a + b == b;
      assert Fields(b).Some? ==> [] + Fields(b).value == Fields(b).value;
    } else {
      var f := NextField(a).value;
      NextFieldPrefix(a, b);
      FieldsAppend(a[f.count..], b);
      assert (a + b)[f.count..] == a[f.count..] + b;
      if Fields(b).Some? {
        assert [f.value] + (Fields(a[f.count..]).value + Fields(b).value) == Fields(a).value + Fields(b).value;
      }
    }
  }

  // ----- Responses

  datatype Observation = Mempool | Forked | Mined(height: U64)

  predicate IsHeight(f: Field) {
    f.VarintField? && f.number == 2
  }

  /** The last height field counts. */
  function LastHeight(fields: seq<Field>, height: U64): U64 {
    if fields == [] then height
    else LastHeight(fields[1..], if IsHeight(fields[0]) then fields[0].value else height)
  }

  function ObservationOf(height: U64): Observation {
    if height == 0 then Mempool else if height == U64_MAX then Forked else Mined(height)
  }

  function ParseTransaction(data: Bytes): Result<Observation, WireError> {
    match GrpcPayload(data)
    case Err(e) => Err(e)
    case Ok(payload) =>
      match Fields(payload)
      case None => Err(Malformed)
      case Some(fields) => Ok(ObservationOf(LastHeight(fields, 0)))
  }

  /** `Int32(bitPattern: UInt32(truncatingIfNeeded: value))`. */
  function AsInt32(value: U64): int {
    var low := value % TWO_32;
    if low < 0x8000_0000 then low else low - TWO_32
  }

  datatype SendResponse = SendResponse(errorCode: int, errorMessage: string)

  /** How bytes decode as UTF-8 text, if they do. */
  type Utf8 = Bytes -> Option<string>

  function SendStep(utf8: Utf8, f: Field, r: SendResponse): Option<SendResponse> {
    if f.VarintField? && f.number == 1 then Some(r.(errorCode := AsInt32(f.value)))
    else if f.BytesField? && f.number == 2 then
      match utf8(f.data)
      case None => None
      case Some(text) => Some(r.(errorMessage := text))
    else Some(r)
  }

  function SendFields(utf8: Utf8, fields: seq<Field>, r: SendResponse): Option<SendResponse> {
    if fields == [] then Some(r)
    else
      match SendStep(utf8, fields[0], r)
      case None => None
      case Some(r') => SendFields(utf8, fields[1..], r')
  }

  function ParseSend(utf8: Utf8, data: Bytes): Result<SendResponse, WireError> {
    match GrpcPayload(data)
    case Err(e) => Err(e)
    case Ok(payload) =>
      match Fields(payload)
      case None => Err(Malformed)
      case Some(fields) =>
        match SendFields(utf8, fields, SendResponse(0, ""))
        case None => Err(Malformed)
        case Some(r) => Ok(r)
  }

  /** The first varint field 1 is the height; nothing behind it is looked at. */
  function BlockHeight(payload: Bytes): Result<U64, WireError>
    decreases |payload|
  {
    if payload == [] then Err(MissingHeight)
    else
      match NextField(payload)
      case None => Err(Malformed)
      case Some(f) =>
        if f.value.VarintField? && f.value.number == 1 then Ok(f.value.value) else BlockHeight(payload[f.count..])
  }

  function ParseLatestBlock(data: Bytes): Result<U64, WireError> {
    match GrpcPayload(data)
    case Err(e) => Err(e)
    case Ok(payload) => if payload == [] then Err(Malformed) else BlockHeight(payload)
  }

  // ----- Unknown fields

  lemma {:induction false} LastHeightAppend(a: seq<Field>, b: seq<Field>, height: U64)
    ensures LastHeight(a + b, height) == LastHeight(b, LastHeight(a, height))
  {
    if a == [] {
      assert a + b == b;
    } else {
      LastHeightAppend(a[1..], b, if IsHeight(a[0]) then a[0].value else height);
      assert (a + b)[1..] == a[1..] + b;
    }
  }

  lemma {:induction false} NoHeightNoChange(fields: seq<Field>, height: U64)
    requires forall i :: 0 <= i < |fields| ==> !IsHeight(fields[i])
    ensures LastHeight(fields, height) == height
  {
    if fields != [] {
      NoHeightNoChange(fields[1..], height);
    }
  }

  /**
   * Well-formed fields that the client does not know, inserted at a field
   * boundary of any message, do not change the parsed transaction; not even when
   * the rest of the message is malformed.
   */
  lemma UnknownFieldsKeepTransaction(before: Bytes, unknown: Bytes, after: Bytes)
    requires Fields(before).Some? && Fields(unknown).Some?
    requires forall i :: 0 <= i < |Fields(unknown).value| ==> !IsHeight(Fields(unknown).value[i])
    requires |before + unknown + after| < TWO_32
    ensures ParseTransaction(GrpcFrame(before + unknown + after)) == ParseTransaction(GrpcFrame(before + after))
  {
    InsertedFields(before, unknown, after);
    if Fields(after).Some? {
      var b, u, a := Fields(before).value, Fields(unknown).value, Fields(after).value;
      LastHeightAppend(b + u, a, 0);
      LastHeightAppend(b, u, 0);
      NoHeightNoChange(u, LastHeight(b, 0));
      LastHeightAppend(b, a, 0);
    }
  }

  /** What framing, unframing and reading make of an insertion. */
  lemma InsertedFields(before: Bytes, unknown: Bytes, after: Bytes)
    requires Fields(before).Some? && Fields(unknown).Some?
    requires |before + unknown + after| < TWO_32
    ensures GrpcPayload(GrpcFrame(before + unknown + after)) == Ok(before + unknown + after)
    ensures GrpcPayload(GrpcFrame(before + after)) == Ok(before + after)
    ensures Fields(after).Some? ==>
              && Fields(before + after) == Some(Fields(before).value + Fields(after).value)
              && Fields(before + unknown + after) == Some(Fields(before).value + Fields(unknown).value
                                                          + Fields(after).value)
    ensures Fields(after).None? ==> Fields(before + after).None? && Fields(before + unknown + after).None?
  {
    FrameRoundTrip(before + unknown + after, []);
    FrameRoundTrip(before + after, []);
    assert GrpcFrame(before + unknown + after) + [] == GrpcFrame(before + unknown + after);
    assert GrpcFrame(before + after) + [] == GrpcFrame(before + after);
    FieldsAppend(before, unknown);
    FieldsAppend(before + unknown, after);
    FieldsAppend(before, after);
  }

  /** Whether the send response is built from this field. */
  predicate IsSendField(f: Field) {
    (f.VarintField? && f.number == 1) || (f.BytesField? && f.number == 2)
  }

  lemma {:induction false} SendFieldsAppend(utf8: Utf8, a: seq<Field>, b: seq<Field>, r: SendResponse)
    ensures SendFields(utf8, a + b, r)
            == match SendFields(utf8, a, r) case None => None case Some(r') => SendFields(utf8, b, r')
  {
    if a == [] {
      assert a + b == b;
    } else {
      assert (a + b)[1..] == a[1..] + b;
      match SendStep(utf8, a[0], r)
      case None =>
      case Some(r') => SendFieldsAppend(utf8, a[1..], b, r');
    }
  }

  lemma {:induction false} NoSendFieldNoChange(utf8: Utf8, fields: seq<Field>, r: SendResponse)
    requires forall i :: 0 <= i < |fields| ==> !IsSendField(fields[i])
    ensures SendFields(utf8, fields, r) == Some(r)
  {
    if fields != [] {
      NoSendFieldNoChange(utf8, fields[1..], r);
    }
  }

  lemma UnknownFieldsKeepSendResponse(utf8: Utf8, before: Bytes, unknown: Bytes, after: Bytes)
    requires Fields(before).Some? && Fields(unknown).Some?
    requires forall i :: 0 <= i < |Fields(unknown).value| ==> !IsSendField(Fields(unknown).value[i])
    requires |before + unknown + after| < TWO_32
    ensures ParseSend(utf8, GrpcFrame(before + unknown + after)) == ParseSend(utf8, GrpcFrame(before + after))
  {
    InsertedFields(before, unknown, after);
    if Fields(after).Some? {
      var b, u, a := Fields(before).value, Fields(unknown).value, Fields(after).value;
      var start := SendResponse(0, "");
      SendFieldsAppend(utf8, b + u, a, start);
      SendFieldsAppend(utf8, b, u, start);
      SendFieldsAppend(utf8, b, a, start);
      if SendFields(utf8, b, start).Some? {
        NoSendFieldNoChange(utf8, u, SendFields(utf8, b, start).value);
      }
    }
  }

  predicate IsBlockHeight(f: Field) {
    f.VarintField? && f.number == 1
  }

  /** The height of a message is that of its first part, if that part has one. */
  lemma {:induction false} BlockHeightAppend(a: Bytes, b: Bytes)
    requires Fields(a).Some?
    ensures (exists i :: 0 <= i < |Fields(a).value| && IsBlockHeight(Fields(a).value[i])) ==>
              BlockHeight(a).Ok? && BlockHeight(a + b) == BlockHeight(a)
    ensures (forall i :: 0 <= i < |Fields(a).value| ==> !IsBlockHeight(Fields(a).value[i])) ==>
              BlockHeight(a + b) == BlockHeight(b)
    decreases |a|
  {
    hide NextField;
    if a == [] {
      assert a + b == b;
    } else {
      var f := NextField(a).value;
      var rest := a[f.count..];
      NextFieldPrefix(a, b);
      BlockHeightAppend(rest, b);
      assert (a + b)[f.count..] == rest + b;
      assert Fields(a).value == [f.value] + Fields(rest).value;
      assert forall i :: 0 <= i < |Fields(rest).value| ==> Fields(a).value[i + 1] == Fields(rest).value[i];
      assert Fields(a).value[0] == f.value;
    }
  }

  /**
   * Unknown fields keep the parsed block height as well, except in an empty
   * message, which is refused as malformed while one of unknown fields alone is
   * refused for its missing height.
   */
  lemma UnknownFieldsKeepBlockHeightExactly(before: Bytes, unknown: Bytes, after: Bytes)
    requires Fields(before).Some? && Fields(unknown).Some?
    requires forall i :: 0 <= i < |Fields(unknown).value| ==> !IsBlockHeight(Fields(unknown).value[i])
    requires |before + unknown + after| < TWO_32
    ensures ParseLatestBlock(GrpcFrame(before + unknown + after)) == ParseLatestBlock(GrpcFrame(before + after))
            <==> before + after != [] || unknown == []
  {
    hide Fields, BlockHeight, GrpcFrame, GrpcPayload;
    InsertedFields(before, unknown, after);
    BlockHeightAppend(before, after);
    BlockHeightAppend(before, unknown + after);
    BlockHeightAppend(unknown, after);
    assert before + (unknown + after) == before + unknown + after;
    if before + after == [] {
      assert before == [] && after == [] && before + unknown + after == unknown;
      EmptyHasNoHeight();
      assert unknown + after == unknown;
    }
  }

  lemma EmptyHasNoHeight()
    ensures BlockHeight([]) == Err(MissingHeight)
  {
  }

  // ----- Requests

  /** `rawTransactionMessage` (field 1) and `transactionFilterMessage` (field 3): one length-delimited field. */
  function BytesMessage(number: nat, data: Bytes): Bytes
    requires number < 16 && |data| < TWO_64
  {
    [8 * number + 2] + Encode(|data|) + data
  }

  lemma BytesMessageRoundTrip(number: nat, data: Bytes)
    requires 0 < number < 16 && |data| <= INT_MAX
    ensures Fields(BytesMessage(number, data)) == Some([BytesField(number, data)])
  {
    var message := BytesMessage(number, data);
    var length := Encode(|data|);
    var body := length + data;
    assert message == [8 * number + 2] + body;
    assert Varint(message) == Some(Read(8 * number + 2, 1)) by {
      assert Pow128(0) == 1;
      assert Group(message[0], 0) == 8 * number + 2;
    }
    assert message[1..] == body;
    VarintRoundTrip(|data|, data);
    assert body[|length|..|length| + |data|] == data;
    assert Delimited(body) == Some(Read(data, |body|));
    assert (8 * number + 2) / 8 == number && (8 * number + 2) % 8 == 2;
    assert NextField(message) == Some(Read(BytesField(number, data), |message|));
    assert message[|message|..] == [] && Fields([]) == Some([]);
    hide NextField;
    assert [BytesField(number, data)] + [] == [BytesField(number, data)];
  }
}
