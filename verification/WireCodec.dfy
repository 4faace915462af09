/** The client's encoders and parsers as they run, over a buffer and a moving index. */
module WireCodec {
  import opened Common
  import opened Wire

  method EncodeVarint(value: U64) returns (encoded: Bytes)
    ensures encoded == Encode(value)
    ensures Varint(encoded) == Some(Read(value, |encoded|))
  {
    encoded := [];
    var left: nat := value;
    var more := true;
    while more
      invariant more ==> Encode(value) == encoded + Encode(left)
      invariant !more ==> Encode(value) == encoded
      decreases more, left
    {
      var byte: Byte := left % 128;
      var next := left / 128;
      if next != 0 {
        assert encoded + Encode(left) == encoded + [byte + 128] + Encode(next);
        encoded := encoded + [byte + 128];
      } else {
        encoded := encoded + [byte];
        more := false;
      }
      left := next;
    }
    VarintRoundTrip(value, []);
    assert encoded + [] == encoded;
  }

  /** Reads a varint at the index, which moves behind it. */
  method ReadVarint(data: Bytes, start: nat) returns (r: Option<U64>, index: nat)
    requires start <= |data|
    ensures match Varint(data[start..])
            case None => r == None
            case Some(v) => r == Some(v.value) && index == start + v.count
    ensures start <= index <= |data|
  {
    index := start;
    var value: nat, k := 0, 0;
    ghost var whole := Varint(data[start..]);
    VarintFits(data[start..], 0);
    while index < |data| && k < 10
      invariant index == start + k <= |data| && k <= 10
      invariant whole == match VarintFrom(data[index..], k)
                         case None => None
                         case Some(v) => Some(Read(value + v.value, k + v.count))
    {
      var byte := data[index];
      assert data[index..][0] == byte && data[index..][1..] == data[index + 1..];
      index := index + 1;
      value := value + Group(byte, k);
      if byte < 128 {
        return Some(value), index;
      }
      k := k + 1;
    }
    return None, index;
  }

  /** Moves the index behind the value of a field of the given type. */
  method SkipField(data: Bytes, wireType: nat, start: nat, ghost number: nat) returns (ok: bool, index: nat)
    requires start <= |data|
    ensures start <= index <= |data|
    ensures match FieldValue(data[start..], number, wireType)
            case None => !ok
            case Some(f) => ok && index == start + f.count
  {
    index := start;
    match wireType
    case 0 =>
      var v;
      v, index := ReadVarint(data, start);
      return v.Some?, index;
    case 1 =>
      if |data| - start < 8 {
        return false, index;
      }
      return true, start + 8;
    case 2 =>
      var length;
      length, index := ReadVarint(data, start);
      if length.None? || length.value > INT_MAX || |data| - index < length.value {
        return false, index;
      }
      return true, index + length.value;
    case 5 =>
      if |data| - start < 4 {
        return false, index;
      }
      return true, start + 4;
    case _ =>
      return false, index;
  }

  /** What is left of a message once its first fields have been seen. */
  ghost predicate Seen(payload: Bytes, index: nat, seen: seq<Field>)
    requires index <= |payload|
  {
    Fields(payload) == match Fields(payload[index..]) case None => None case Some(rest) => Some(seen + rest)
  }

  lemma SeenNext(payload: Bytes, index: nat, seen: seq<Field>)
    requires index < |payload| && Seen(payload, index, seen)
    ensures NextField(payload[index..]).None? ==> Fields(payload).None?
    ensures NextField(payload[index..]).Some? ==>
              var f := NextField(payload[index..]).value;
              index + f.count <= |payload| && Seen(payload, index + f.count, seen + [f.value])
  {
    hide NextField;
    var next := NextField(payload[index..]);
    if next.Some? {
      var f := next.value;
      assert payload[index..][f.count..] == payload[index + f.count..];
      var rest := Fields(payload[index + f.count..]);
      if rest.Some? {
        assert seen + ([f.value] + rest.value) == (seen + [f.value]) + rest.value;
      }
    }
  }

  lemma SeenBounds(payload: Bytes)
    ensures Seen(payload, 0, [])
    ensures forall seen :: Seen(payload, |payload|, seen) ==> Fields(payload) == Some(seen)
  {
    assert payload[0..] == payload && payload[|payload|..] == [];
    assert Fields(payload).Some? ==> [] + Fields(payload).value == Fields(payload).value;
    assert Fields([]) == Some([]);
    forall seen | Seen(payload, |payload|, seen)
      ensures Fields(payload) == Some(seen)
    {
      assert seen + [] == seen;
    }
  }

  lemma LastHeightSnoc(seen: seq<Field>, f: Field)
    ensures LastHeight(seen + [f], 0) == if IsHeight(f) then f.value else LastHeight(seen, 0)
  {
    LastHeightAppend(seen, [f], 0);
    assert [f][1..] == [];
  }

  /** The key and value of the field at an index, once its key has been read. */
  lemma KeyThenValue(payload: Bytes, index: nat, middle: nat)
    requires index < |payload| && Varint(payload[index..]).Some?
             && middle == index + Varint(payload[index..]).value.count
    ensures middle <= |payload|
    ensures var key := Varint(payload[index..]).value.value;
            var value := FieldValue(payload[middle..], key / 8, key % 8);
            NextField(payload[index..]) == match value case None => None case Some(f) => Some(Read(f.value,
                      middle - index + f.count))
  {
    assert payload[index..][middle - index..] == payload[middle..];
  }

  lemma NoKeyNoField(payload: Bytes, index: nat)
    requires index <= |payload| && Varint(payload[index..]).None?
    ensures NextField(payload[index..]).None?
  {
  }

  /** `grpcPayload`, folding the length bytes one by one. */
  method UnframeGrpc(data: Bytes) returns (r: Result<Bytes, WireError>)
    ensures r == GrpcPayload(data)
  {
    if |data| < 5 || data[0] != 0 {
      return Err(Malformed);
    }
    var length: nat := 0;
    for i := 1 to 5
      invariant length == FromBigEndian(data[1..i])
    {
      assert data[1..i + 1][..i - 1] == data[1..i];
      length := length * 256 + data[i];
    }
    if 5 + length > |data| {
      return Err(Malformed);
    }
    return Ok(data[5..5 + length]);
  }

  /** One turn of a parse loop that looks for varints of field `wanted` and skips everything else. */
  method NextVarintField(payload: Bytes, start: nat, wanted: nat) returns (ok: bool, found: Option<U64>, index: nat)
    requires start < |payload|
    ensures start <= index <= |payload|
    ensures match NextField(payload[start..])
            case None => !ok
            case Some(f) =>
              && ok && index == start + f.count
              && found == if f.value.VarintField? && f.value.number == wanted then Some(f.value.value) else None
  {
    hide NextField, Varint, Delimited;
    var key;
    key, index := ReadVarint(payload, start);
    if key.None? {
      NoKeyNoField(payload, start);
      return false, None, index;
    }
    KeyThenValue(payload, start, index);
    ok, found := true, None;
    if key.value / 8 == wanted && key.value % 8 == 0 {
      found, index := ReadVarint(payload, index);
      ok := found.Some?;
    } else {
      ok, index := SkipField(payload, key.value % 8, index, key.value / 8);
    }
  }

  method ParseTransactionResponse(data: Bytes) returns (r: Result<Observation, WireError>)
    ensures r == ParseTransaction(data)
  {
    hide NextField, Seen;
    var unframed := UnframeGrpc(data);
    if unframed.Err? {
      return Err(unframed.error);
    }
    var payload := unframed.value;
    var index: nat, height: U64 := 0, 0;
    ghost var seen: seq<Field> := [];
    SeenBounds(payload);
    while index < |payload|
      invariant index <= |payload| && Seen(payload, index, seen) && height == LastHeight(seen, 0)
    {
      ghost var start := index;
      SeenNext(payload, start, seen);
      var ok, found;
      ok, found, index := NextVarintField(payload, index, 2);
      if !ok {
        return Err(Malformed);
      }
      if found.Some? {
        height := found.value;
      }
      ghost var f := NextField(payload[start..]).value.value;
      LastHeightSnoc(seen, f);
      seen := seen + [f];
    }
    return Ok(ObservationOf(height));
  }

  method ParseLatestBlockResponse(data: Bytes) returns (r: Result<U64, WireError>)
    ensures r == ParseLatestBlock(data)
  {
    hide NextField;
    var unframed := UnframeGrpc(data);
    if unframed.Err? {
      return Err(unframed.error);
    }
    var payload := unframed.value;
    if payload == [] {
      return Err(Malformed);
    }
    var index: nat := 0;
    assert payload[0..] == payload;
    while index < |payload|
      invariant index <= |payload| && BlockHeight(payload) == BlockHeight(payload[index..])
    {
      ghost var start := index;
      var ok, found;
      ok, found, index := NextVarintField(payload, index, 1);
      if !ok {
        return Err(Malformed);
      }
      if found.Some? {
        return Ok(found.value);
      }
      assert payload[start..][index - start..] == payload[index..];
    }
    return Err(MissingHeight);
  }

  /** One turn of the send parser: the response so far with the next field taken in. */
  method NextSendField(utf8: Utf8, payload: Bytes, start: nat,
                       response: SendResponse) returns (next: Option<SendResponse>, index: nat)
    requires start < |payload|
    ensures start <= index <= |payload|
    ensures match NextField(payload[start..])
            case None => next == None
            case Some(f) => next == SendStep(utf8, f.value, response) && (next.Some? ==> index == start + f.count)
  {
    hide NextField, Varint;
    var key;
    key, index := ReadVarint(payload, start);
    if key.None? {
      NoKeyNoField(payload, start);
      return None, index;
    }
    KeyThenValue(payload, start, index);
    var number, wireType := key.value / 8, key.value % 8;
    if number == 1 && wireType == 0 {
      var code;
      code, index := ReadVarint(payload, index);
      return if code.None? then None else Some(response.(errorCode := AsInt32(code.value))), index;
    }
    if number == 2 && wireType == 2 {
      var length;
      ghost var middle := index;
      length, index := ReadVarint(payload, index);
      if length.None? || length.value > INT_MAX || |payload| - index < length.value {
        return None, index;
      }
      var end := index + length.value;
      assert payload[middle..][index - middle..end - middle] == payload[index..end];
      var text := utf8(payload[index..end]);
      return if text.None? then None else Some(response.(errorMessage := text.value)), end;
    }
    var ok;
    ok, index := SkipField(payload, wireType, index, number);
    return if ok then Some(response) else None, index;
  }

  lemma SendFieldsSnoc(utf8: Utf8, seen: seq<Field>, f: Field, r: SendResponse)
    ensures SendFields(utf8, seen + [f], r)
            == match SendFields(utf8, seen, r) case None => None case Some(r') => SendStep(utf8, f, r')
  {
    SendFieldsAppend(utf8, seen, [f], r);
    assert [f][1..] == [];
  }

  lemma SendFieldsFail(utf8: Utf8, payload: Bytes, index: nat, seen: seq<Field>, r: SendResponse)
    requires index <= |payload| && Seen(payload, index, seen) && SendFields(utf8, seen, r).None?
    ensures Fields(payload).Some? ==> SendFields(utf8, Fields(payload).value, r).None?
  {
    if Fields(payload).Some? {
      SendFieldsAppend(utf8, seen, Fields(payload[index..]).value, r);
    }
  }

  method ParseSendTransactionResponse(utf8: Utf8, data: Bytes) returns (r: Result<SendResponse, WireError>)
    ensures r == ParseSend(utf8, data)
  {
    hide NextField, Seen, SendFields, SendStep;
    var unframed := UnframeGrpc(data);
    if unframed.Err? {
      return Err(unframed.error);
    }
    var payload := unframed.value;
    var empty := SendResponse(0, "");
    var index: nat, response := 0, empty;
    ghost var seen: seq<Field> := [];
    SeenBounds(payload);
    SendFieldsNone(utf8, empty);
    while index < |payload|
      invariant index <= |payload| && Seen(payload, index, seen) && SendFields(utf8, seen, empty) == Some(response)
    {
      ghost var start := index;
      SeenNext(payload, start, seen);
      var next;
      next, index := NextSendField(utf8, payload, index, response);
      if NextField(payload[start..]).Some? {
        SendFieldsSnoc(utf8, seen, NextField(payload[start..]).value.value, empty);
        seen := seen + [NextField(payload[start..]).value.value];
      }
      if next.None? {
        if NextField(payload[start..]).Some? {
          SendFieldsFail(utf8, payload, start + NextField(payload[start..]).value.count, seen, empty);
        }
        return Err(Malformed);
      }
      response := next.value;
    }
    return Ok(response);
  }

  lemma SendFieldsNone(utf8: Utf8, r: SendResponse)
    ensures SendFields(utf8, [], r) == Some(r)
  {
  }
}
