/**
 * What the response parsers read from bytes: for every value that a server may
 * send, the value that comes out, whatever fields lie around it.
 */
module WireReplies {
  import opened Common
  import opened Wire

  // ----- One field as bytes

  /** A varint field: its key, then its value. */
  function VarintMessage(number: nat, value: U64): Bytes
    requires number < 16
  {
    [8 * number] + Encode(value)
  }

  lemma VarintMessageRoundTrip(number: nat, value: U64)
    requires 0 < number < 16
    ensures Fields(VarintMessage(number, value)) == Some([VarintField(number, value)])
  {
    var message := VarintMessage(number, value);
    var body := Encode(value);
    assert message[1..] == body;
    assert Varint(message) == Some(Read(8 * number, 1)) by {
      assert Pow128(0) == 1;
      assert Group(message[0], 0) == 8 * number;
    }
    VarintRoundTrip(value, []);
    assert body + [] == body;
    assert FieldValue(body, number, 0) == Some(Read(VarintField(number, value), |body|));
    assert 8 * number / 8 == number && 8 * number % 8 == 0;
    assert NextField(message) == Some(Read(VarintField(number, value), |message|));
    assert message[|message|..] == [] && Fields([]) == Some([]);
    hide NextField;
    assert [VarintField(number, value)] + [] == [VarintField(number, value)];
  }

  /** What a whole message reads as, when the part in the middle is one field. */
  lemma FieldsAround(before: Bytes, part: Bytes, field: Field, after: Bytes)
    requires Fields(before).Some? && Fields(part) == Some([field]) && Fields(after).Some?
    ensures Fields(before + part + after) == Some(Fields(before).value + [field] + Fields(after).value)
  {
    FieldsAppend(before, part);
    FieldsAppend(before + part, after);
  }

  lemma Unframed(payload: Bytes)
    requires |payload| < TWO_32
    ensures GrpcPayload(GrpcFrame(payload)) == Ok(payload)
  {
    FrameRoundTrip(payload, []);
    assert GrpcFrame(payload) + [] == GrpcFrame(payload);
  }

  // ----- The send response

  predicate IsCode(f: Field) {
    f.VarintField? && f.number == 1
  }

  predicate IsText(f: Field) {
    f.BytesField? && f.number == 2
  }

  /** How a signed 32-bit code travels: sign-extended to 64 bits. */
  function SignExtended(code: int): U64
    requires -0x8000_0000 <= code < 0x8000_0000
  {
    if code < 0 then TWO_64 + code else code
  }

  lemma SignExtensionRoundTrip(code: int)
    requires -0x8000_0000 <= code < 0x8000_0000
    ensures AsInt32(SignExtended(code)) == code
  {
    if code < 0 {
      assert TWO_64 + code == (TWO_32 - 1) * TWO_32 + (TWO_32 + code);
    }
  }

  /** Without a code field the code stays, and without a text field the text does. */
  lemma {:induction false} OtherFieldsKeep(utf8: Utf8, fields: seq<Field>, r: SendResponse)
    requires SendFields(utf8, fields, r).Some?
    ensures (forall i :: 0 <= i < |fields| ==> !IsCode(fields[i])) ==>
              SendFields(utf8, fields, r).value.errorCode == r.errorCode
    ensures (forall i :: 0 <= i < |fields| ==> !IsText(fields[i])) ==>
              SendFields(utf8, fields, r).value.errorMessage == r.errorMessage
  {
    if fields != [] {
      OtherFieldsKeep(utf8, fields[1..], SendStep(utf8, fields[0], r).value);
      assert forall i :: 0 <= i < |fields| - 1 ==> fields[1..][i] == fields[i + 1];
    }
  }

  predicate Decodes(utf8: Utf8, fields: seq<Field>) {
    forall i :: 0 <= i < |fields| && IsText(fields[i]) ==> utf8(fields[i].data).Some?
  }

  lemma {:induction false} SendFieldsExactly(utf8: Utf8, fields: seq<Field>, r: SendResponse)
    ensures SendFields(utf8, fields, r).Some? <==> Decodes(utf8, fields)
  {
    if fields != [] {
      assert forall i :: 0 <= i < |fields| - 1 ==> fields[1..][i] == fields[i + 1];
      if SendStep(utf8, fields[0], r).Some? {
        SendFieldsExactly(utf8, fields[1..], SendStep(utf8, fields[0], r).value);
        assert Decodes(utf8, fields) <==> Decodes(utf8, fields[1..]);
      }
    }
  }

  /** A framed message is read if and only if its fields are well formed and each text in it decodes. */
  lemma ReplyReadsExactly(utf8: Utf8, payload: Bytes)
    requires |payload| < TWO_32
    ensures ParseSend(utf8, GrpcFrame(payload)).Ok? <==> Fields(payload).Some? && Decodes(utf8, Fields(payload).value)
    ensures ParseSend(utf8, GrpcFrame(payload)).Err? ==> ParseSend(utf8, GrpcFrame(payload)).error == Malformed
  {
    hide GrpcFrame, GrpcPayload;
    Unframed(payload);
    if Fields(payload).Some? {
      SendFieldsExactly(utf8, Fields(payload).value, SendResponse(0, ""));
    }
  }

  /** The last code counts: whatever well-formed fields surround it, every 32-bit code comes out as it was sent. */
  lemma LastCodeCounts(utf8: Utf8, before: Bytes, code: int, after: Bytes)
    requires -0x8000_0000 <= code < 0x8000_0000
    requires Fields(before).Some? && Fields(after).Some?
    requires forall i :: 0 <= i < |Fields(after).value| ==> !IsCode(Fields(after).value[i])
    requires |before + VarintMessage(1, SignExtended(code)) + after| < TWO_32
    ensures var r := ParseSend(utf8, GrpcFrame(before + VarintMessage(1, SignExtended(code)) + after));
            r.Ok? ==> r.value.errorCode == code
  {
    hide GrpcFrame, GrpcPayload, Fields, AsInt32, VarintMessage;
    var part := VarintMessage(1, SignExtended(code));
    var field := VarintField(1, SignExtended(code));
    VarintMessageRoundTrip(1, SignExtended(code));
    FieldsAround(before, part, field, after);
    Unframed(before + part + after);
    SignExtensionRoundTrip(code);
    if ParseSend(utf8, GrpcFrame(before + part + after)).Ok? {
      SplitAt(utf8, Fields(before).value, field, Fields(after).value, SendResponse(0, ""));
      var read := SendFields(utf8, Fields(before).value, SendResponse(0, "")).value;
      OtherFieldsKeep(utf8, Fields(after).value, SendStep(utf8, field, read).value);
    }
  }

  /** The last text counts likewise. */
  lemma LastTextCounts(utf8: Utf8, before: Bytes, data: Bytes, after: Bytes)
    requires Fields(before).Some? && Fields(after).Some?
    requires forall i :: 0 <= i < |Fields(after).value| ==> !IsText(Fields(after).value[i])
    requires |data| < TWO_32 && |before + BytesMessage(2, data) + after| < TWO_32
    ensures var r := ParseSend(utf8, GrpcFrame(before + BytesMessage(2, data) + after));
            r.Ok? ==> utf8(data) == Some(r.value.errorMessage)
  {
    hide GrpcFrame, GrpcPayload, Fields, BytesMessage;
    var part := BytesMessage(2, data);
    var field := BytesField(2, data);
    BytesMessageRoundTrip(2, data);
    FieldsAround(before, part, field, after);
    Unframed(before + part + after);
    if ParseSend(utf8, GrpcFrame(before + part + after)).Ok? {
      SplitAt(utf8, Fields(before).value, field, Fields(after).value, SendResponse(0, ""));
      var read := SendFields(utf8, Fields(before).value, SendResponse(0, "")).value;
      OtherFieldsKeep(utf8, Fields(after).value, SendStep(utf8, field, read).value);
    }
  }

  lemma SplitAt(utf8: Utf8, a: seq<Field>, field: Field, b: seq<Field>, r: SendResponse)
    requires SendFields(utf8, a + [field] + b, r).Some?
    ensures SendFields(utf8, a, r).Some? && SendStep(utf8, field, SendFields(utf8, a, r).value).Some?
    ensures SendFields(utf8, a + [field] + b, r)
            == SendFields(utf8, b, SendStep(utf8, field, SendFields(utf8, a, r).value).value)
  {
    SendFieldsAppend(utf8, a + [field], b, r);
    SendFieldsAppend(utf8, a, [field], r);
    assert [field][1..] == [];
  }

  /** An omitted code is 0, and an omitted text is empty. */
  lemma OmittedFieldsDefault(utf8: Utf8, payload: Bytes)
    requires |payload| < TWO_32 && ParseSend(utf8, GrpcFrame(payload)).Ok?
    ensures var fields := Fields(payload);
            var r := ParseSend(utf8, GrpcFrame(payload)).value;
            && fields.Some?
            && ((forall i :: 0 <= i < |fields.value| ==> !IsCode(fields.value[i])) ==> r.errorCode == 0)
            && ((forall i :: 0 <= i < |fields.value| ==> !IsText(fields.value[i])) ==> r.errorMessage == "")
  {
    hide GrpcFrame, GrpcPayload;
    Unframed(payload);
    OtherFieldsKeep(utf8, Fields(payload).value, SendResponse(0, ""));
  }

  /**
   * The reply of a server: the frame of any 32-bit code and any text whose bytes
   * decode is read as exactly that code and that text, in either order, and
   * without the code as code 0.
   */
  lemma ReplyRoundTrip(utf8: Utf8, code: int, data: Bytes, text: string)
    requires -0x8000_0000 <= code < 0x8000_0000 && utf8(data) == Some(text) && |data| < 0x8000_0000
    ensures var codeField, textField := VarintMessage(1, SignExtended(code)), BytesMessage(2, data);
            && |codeField + textField| < TWO_32 && |textField + codeField| < TWO_32 && |textField| < TWO_32
            && ParseSend(utf8, GrpcFrame(codeField + textField)) == Ok(SendResponse(code, text))
            && ParseSend(utf8, GrpcFrame(textField + codeField)) == Ok(SendResponse(code, text))
            && ParseSend(utf8, GrpcFrame(textField)) == Ok(SendResponse(0, text))
  {
    hide GrpcFrame, GrpcPayload, Fields, SendFields, ParseSend, AsInt32;
    var codeField, textField := VarintMessage(1, SignExtended(code)), BytesMessage(2, data);
    FieldsAreShort(code, data);
    hide VarintMessage, BytesMessage;
    VarintMessageRoundTrip(1, SignExtended(code));
    BytesMessageRoundTrip(2, data);
    NoFields();
    assert [] + codeField + textField == codeField + textField == codeField + textField + [];
    assert [] + textField + codeField == textField + codeField == textField + codeField + [];
    assert textField == textField + [] == [] + textField + [];
    FieldsAppend(codeField, textField);
    FieldsAppend(textField, codeField);
    ReplyReadsExactly(utf8, codeField + textField);
    ReplyReadsExactly(utf8, textField + codeField);
    ReplyReadsExactly(utf8, textField);
    LastCodeCounts(utf8, [], code, textField);
    LastTextCounts(utf8, codeField, data, []);
    LastCodeCounts(utf8, textField, code, []);
    LastTextCounts(utf8, [], data, codeField);
    LastTextCounts(utf8, [], data, []);
    OmittedFieldsDefault(utf8, textField);
  }

  lemma NoFields()
    ensures Fields([]) == Some([])
  {
  }

  lemma FieldsAreShort(code: int, data: Bytes)
    requires -0x8000_0000 <= code < 0x8000_0000 && |data| < 0x8000_0000
    ensures |VarintMessage(1, SignExtended(code))| <= 11 && |BytesMessage(2, data)| <= 0x8000_0000 + 10
  {
    VarintRoundTrip(SignExtended(code), []);
    VarintRoundTrip(|data|, []);
  }

  // ----- Heights

  /** The last height of a transaction response counts; two heights are not heights. */
  lemma LastHeightCounts(before: Bytes, height: U64, after: Bytes)
    requires Fields(before).Some? && Fields(after).Some?
    requires forall i :: 0 <= i < |Fields(after).value| ==> !IsHeight(Fields(after).value[i])
    requires |before + VarintMessage(2, height) + after| < TWO_32
    ensures var r := ParseTransaction(GrpcFrame(before + VarintMessage(2, height) + after));
            && r.Ok?
            && (r.value == Mempool <==> height == 0)
            && (r.value == Forked <==> height == U64_MAX)
            && (r.value.Mined? ==> r.value.height == height)
  {
    hide GrpcFrame, GrpcPayload, Fields, VarintMessage;
    var part := VarintMessage(2, height);
    var field := VarintField(2, height);
    VarintMessageRoundTrip(2, height);
    FieldsAround(before, part, field, after);
    Unframed(before + part + after);
    LastHeightAppend(Fields(before).value + [field], Fields(after).value, 0);
    LastHeightAppend(Fields(before).value, [field], 0);
    assert [field][1..] == [];
    NoHeightNoChange(Fields(after).value, height);
  }

  /** A transaction response without a height is one in the mempool. */
  lemma NoHeightIsMempool(payload: Bytes)
    requires |payload| < TWO_32 && Fields(payload).Some?
    requires forall i :: 0 <= i < |Fields(payload).value| ==> !IsHeight(Fields(payload).value[i])
    ensures ParseTransaction(GrpcFrame(payload)) == Ok(Mempool)
  {
    hide GrpcFrame, GrpcPayload, Fields;
    Unframed(payload);
    NoHeightNoChange(Fields(payload).value, 0);
  }

  /** The first height of a block counts, whatever bytes follow it. */
  lemma FirstBlockHeightCounts(before: Bytes, height: U64, after: Bytes)
    requires Fields(before).Some?
    requires forall i :: 0 <= i < |Fields(before).value| ==> !IsBlockHeight(Fields(before).value[i])
    requires |before + VarintMessage(1, height) + after| < TWO_32
    ensures ParseLatestBlock(GrpcFrame(before + VarintMessage(1, height) + after)) == Ok(height)
  {
    var part := VarintMessage(1, height);
    assert part != [];
    assert before + (part + after) == before + part + after;
    hide GrpcFrame, GrpcPayload, Fields, VarintMessage;
    VarintMessageRoundTrip(1, height);
    Unframed(before + part + after);
    BlockHeightAppend(before, part + after);
    HeightFieldReads(part, height, after);
  }

  lemma HeightFieldReads(part: Bytes, height: U64, after: Bytes)
    requires Fields(part) == Some([VarintField(1, height)])
    ensures part != [] && BlockHeight(part + after) == Ok(height)
  {
    hide NextField;
    assert part != [];
    var f := NextField(part).value;
    assert Fields(part).value == [f.value] + Fields(part[f.count..]).value;
    assert f.value == Fields(part).value[0] == VarintField(1, height);
    NextFieldPrefix(part, after);
  }
}
