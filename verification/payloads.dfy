/** Instruction data sent to the stream program: the `CreateStreamInput` and
    `WithdrawInput` Borsh structs, each behind a one-byte tag, and the bare
    cancel tag. `ParseInstructionData` is the reading side of the same wire
    contract (the program's dispatch on the first byte), used here as the
    partner against which the encoders are proved. */
module Payloads {
  import opened Wrappers
  import opened Borsh

  const CREATE_STREAM_TAG: Byte := 1
  const WITHDRAW_TAG: Byte := 2
  const CANCEL_TAG: Byte := 3

  /** Field order of `CreateStreamInput.schema`; the order is part of the wire format. */
  const CreateStreamSchema: seq<Field> := [
    Field("start_time", U64),
    Field("end_time", U64),
    Field("receiver", FixedBytes(32)),
    Field("lamports_withdrawn", U64),
    Field("amount_second", U64)
  ]

  const WithdrawSchema: seq<Field> := [Field("amount", U64)]

  datatype CreateStreamInput = CreateStreamInput(
    startTime: nat,
    endTime: nat,
    receiver: seq<Byte>,
    lamportsWithdrawn: nat,
    amountSecond: nat)
  {
    /** Every field fits its schema type: four `u64`s and a 32-byte key. */
    predicate Valid() {
      IsU64(startTime) && IsU64(endTime) && |receiver| == 32 &&
      IsU64(lamportsWithdrawn) && IsU64(amountSecond)
    }

    function Fields(): seq<Value> {
      [U64Value(startTime), U64Value(endTime), BytesValue(receiver),
       U64Value(lamportsWithdrawn), U64Value(amountSecond)]
    }
  }

  datatype WithdrawInput = WithdrawInput(amount: nat)
  {
    predicate Valid() {
      IsU64(amount)
    }
  }

  /** The three instructions of the stream program, as the client builds them. */
  datatype StreamInstruction =
    | CreateStream(create: CreateStreamInput)
    | Withdraw(withdraw: WithdrawInput)
    | Cancel
  {
    predicate Valid() {
      match this
      case CreateStream(c) => c.Valid()
      case Withdraw(w) => w.Valid()
      case Cancel => true
    }

    function Tag(): Byte {
      match this
      case CreateStream(_) => CREATE_STREAM_TAG
      case Withdraw(_) => WITHDRAW_TAG
      case Cancel => CANCEL_TAG
    }
  }

  /** The schema accepts the fields exactly when every value is in range. */
  lemma CreateStreamFieldsConform(x: CreateStreamInput)
    ensures ConformsAll(CreateStreamSchema, x.Fields()) <==> x.Valid()
  {
    var s := CreateStreamSchema;
    var v := x.Fields();
    assert ConformsAll(s[4..], v[4..]) <==> IsU64(x.amountSecond);
    assert ConformsAll(s[3..], v[3..]) <==> IsU64(x.lamportsWithdrawn) && IsU64(x.amountSecond);
    assert ConformsAll(s[2..], v[2..]) <==>
      |x.receiver| == 32 && IsU64(x.lamportsWithdrawn) && IsU64(x.amountSecond);
    assert ConformsAll(s[1..], v[1..]) <==>
      IsU64(x.endTime) && |x.receiver| == 32 && IsU64(x.lamportsWithdrawn) && IsU64(x.amountSecond);
  }

  lemma CreateStreamFieldsShaped(x: CreateStreamInput)
    requires |x.receiver| == 32
    ensures ShapedAll(CreateStreamSchema, x.Fields())
  {
    var s := CreateStreamSchema;
    var v := x.Fields();
    assert ShapedAll(s[4..], v[4..]);
    assert ShapedAll(s[3..], v[3..]);
    assert ShapedAll(s[2..], v[2..]);
    assert ShapedAll(s[1..], v[1..]);
  }

  function CreateStreamOfFields(vs: seq<Value>): Option<CreateStreamInput> {
    if |vs| == 5 && vs[0].U64Value? && vs[1].U64Value? && vs[2].BytesValue?
       && vs[3].U64Value? && vs[4].U64Value?
    then Some(CreateStreamInput(vs[0].n, vs[1].n, vs[2].bytes, vs[3].n, vs[4].n))
    else None
  }

  /** `serialize(CreateStreamInput.schema, input)`: 8+8+32+8+8 bytes. */
  function EncodeCreateStreamInput(x: CreateStreamInput): (r: seq<Byte>)
    requires x.Valid()
    ensures |r| == 64
  {
    CreateStreamFieldsConform(x);
    Serialize(CreateStreamSchema, x.Fields())
  }

  /** `serialize(CreateStreamInput.schema, input)` as it runs: `None` where a
      `u64` field is out of range and the writer throws. */
  function SerializeCreateStreamInput(x: CreateStreamInput): (r: Option<seq<Byte>>)
    requires |x.receiver| == 32
    ensures r.Some? <==> x.Valid()
    ensures r.Some? ==> r.value == EncodeCreateStreamInput(x)
  {
    CreateStreamFieldsShaped(x);
    CreateStreamFieldsConform(x);
    TrySerialize(CreateStreamSchema, x.Fields())
  }

  function DecodeCreateStreamInput(b: seq<Byte>): Option<CreateStreamInput> {
    match Deserialize(CreateStreamSchema, b)
    case None => None
    case Some(vs) => CreateStreamOfFields(vs)
  }

  /** Byte-level layout of the encoded struct, field by field at its offset. */
  lemma EncodeCreateStreamInputLayout(x: CreateStreamInput)
    requires x.Valid()
    ensures EncodeCreateStreamInput(x) ==
      EncodeU64(x.startTime) + EncodeU64(x.endTime) + x.receiver +
      EncodeU64(x.lamportsWithdrawn) + EncodeU64(x.amountSecond)
  {
    CreateStreamFieldsConform(x);
    var s := CreateStreamSchema;
    var v := x.Fields();
    assert Serialize(s[4..], v[4..]) == EncodeU64(x.amountSecond);
    assert Serialize(s[3..], v[3..]) == EncodeU64(x.lamportsWithdrawn) + EncodeU64(x.amountSecond);
    assert Serialize(s[2..], v[2..]) == x.receiver + EncodeU64(x.lamportsWithdrawn) + EncodeU64(x.amountSecond);
    assert Serialize(s[1..], v[1..]) ==
      EncodeU64(x.endTime) + x.receiver + EncodeU64(x.lamportsWithdrawn) + EncodeU64(x.amountSecond);
  }

  /** Decoding an encoded `CreateStreamInput` returns exactly its five fields. */
  lemma CreateStreamInputRoundTrip(x: CreateStreamInput)
    requires x.Valid()
    ensures DecodeCreateStreamInput(EncodeCreateStreamInput(x)) == Some(x)
  {
    CreateStreamFieldsConform(x);
    SerializeRoundTrip(CreateStreamSchema, x.Fields());
  }

  /** Whatever decodes is a valid input whose encoding is the decoded buffer. */
  lemma DecodeCreateStreamInputSound(b: seq<Byte>)
    requires DecodeCreateStreamInput(b).Some?
    ensures DecodeCreateStreamInput(b).value.Valid()
    ensures EncodeCreateStreamInput(DecodeCreateStreamInput(b).value) == b
  {
    DeserializeSound(CreateStreamSchema, b);
    var vs := Deserialize(CreateStreamSchema, b).value;
    var s := CreateStreamSchema;
    assert ConformsAll(s[1..], vs[1..]);
    assert ConformsAll(s[2..], vs[2..]);
    assert ConformsAll(s[3..], vs[3..]);
    assert ConformsAll(s[4..], vs[4..]);
    assert DecodeCreateStreamInput(b).value.Fields() == vs;
  }

  lemma WithdrawFieldsConform(w: WithdrawInput)
    ensures ConformsAll(WithdrawSchema, [U64Value(w.amount)]) <==> w.Valid()
  {
    assert ConformsAll(WithdrawSchema[1..], [U64Value(w.amount)][1..]);
  }

  /** `serialize(WithdrawInput.schema, input)`: the amount as a bare `u64`. */
  function EncodeWithdrawInput(w: WithdrawInput): (r: seq<Byte>)
    requires w.Valid()
    ensures r == EncodeU64(w.amount)
  {
    WithdrawFieldsConform(w);
    Serialize(WithdrawSchema, [U64Value(w.amount)])
  }

  /** `serialize(WithdrawInput.schema, input)` as it runs: `None` where the amount
      is out of range and the writer throws. */
  function SerializeWithdrawInput(w: WithdrawInput): (r: Option<seq<Byte>>)
    ensures r.Some? <==> w.Valid()
    ensures r.Some? ==> r.value == EncodeWithdrawInput(w)
  {
    WithdrawFieldsConform(w);
    assert ShapedAll(WithdrawSchema[1..], [U64Value(w.amount)][1..]);
    TrySerialize(WithdrawSchema, [U64Value(w.amount)])
  }

  function DecodeWithdrawInput(b: seq<Byte>): Option<WithdrawInput> {
    match Deserialize(WithdrawSchema, b)
    case None => None
    case Some(vs) => if |vs| == 1 && vs[0].U64Value? then Some(WithdrawInput(vs[0].n)) else None
  }

  lemma WithdrawInputRoundTrip(w: WithdrawInput)
    requires w.Valid()
    ensures DecodeWithdrawInput(EncodeWithdrawInput(w)) == Some(w)
  {
    WithdrawFieldsConform(w);
    SerializeRoundTrip(WithdrawSchema, [U64Value(w.amount)]);
  }

  lemma DecodeWithdrawInputSound(b: seq<Byte>)
    requires DecodeWithdrawInput(b).Some?
    ensures DecodeWithdrawInput(b).value.Valid()
    ensures EncodeWithdrawInput(DecodeWithdrawInput(b).value) == b
  {
    DeserializeSound(WithdrawSchema, b);
    var vs := Deserialize(WithdrawSchema, b).value;
    assert ConformsAll(WithdrawSchema[1..], vs[1..]);
    assert vs == [U64Value(vs[0].n)];
  }

  /** The instruction data buffer: the tag byte followed by the encoded struct, if any. */
  function InstructionData(ins: StreamInstruction): (r: seq<Byte>)
    requires ins.Valid()
    ensures |r| >= 1 && r[0] == ins.Tag()
    ensures |r| == (match ins case CreateStream(_) => 65 case Withdraw(_) => 9 case Cancel => 1)
  {
    match ins
    case CreateStream(c) => [CREATE_STREAM_TAG] + EncodeCreateStreamInput(c)
    case Withdraw(w) => [WITHDRAW_TAG] + EncodeWithdrawInput(w)
    case Cancel => [CANCEL_TAG]
  }

  /** Reads instruction data back: dispatch on the tag, then decode the struct that follows. */
  function ParseInstructionData(data: seq<Byte>): Option<StreamInstruction> {
    if |data| == 0 then None
    else if data[0] == CREATE_STREAM_TAG then
      match DecodeCreateStreamInput(data[1..])
      case None => None
      case Some(c) => Some(CreateStream(c))
    else if data[0] == WITHDRAW_TAG then
      match DecodeWithdrawInput(data[1..])
      case None => None
      case Some(w) => Some(Withdraw(w))
    else if data == [CANCEL_TAG] then Some(Cancel)
    else None
  }

  /** Every valid instruction's data parses back to that instruction. */
  lemma InstructionDataRoundTrip(ins: StreamInstruction)
    requires ins.Valid()
    ensures ParseInstructionData(InstructionData(ins)) == Some(ins)
  {
    var d := InstructionData(ins);
    match ins
    case CreateStream(c) =>
      assert d[1..] == EncodeCreateStreamInput(c);
      CreateStreamInputRoundTrip(c);
    case Withdraw(w) =>
      assert d[1..] == EncodeWithdrawInput(w);
      WithdrawInputRoundTrip(w);
    case Cancel =>
  }

  /** Every parsable buffer is the data of the instruction it parses to. */
  lemma ParseInstructionDataSound(data: seq<Byte>)
    requires ParseInstructionData(data).Some?
    ensures ParseInstructionData(data).value.Valid()
    ensures InstructionData(ParseInstructionData(data).value) == data
  {
    if data[0] == CREATE_STREAM_TAG {
      DecodeCreateStreamInputSound(data[1..]);
      assert data == [data[0]] + data[1..];
    } else if data[0] == WITHDRAW_TAG {
      DecodeWithdrawInputSound(data[1..]);
      assert data == [data[0]] + data[1..];
    }
  }

  /** Distinct instructions never share a data buffer. */
  lemma InstructionDataInjective(a: StreamInstruction, b: StreamInstruction)
    requires a.Valid() && b.Valid()
    requires InstructionData(a) == InstructionData(b)
    ensures a == b
  {
    InstructionDataRoundTrip(a);
    InstructionDataRoundTrip(b);
  }

  /** A `u64` zero field occupies eight zero bytes. */
  lemma ZeroField(r: seq<Byte>, lo: nat)
    requires lo + 8 <= |r| && r[lo..lo + 8] == EncodeU64(0)
    ensures forall i :: lo <= i < lo + 8 ==> r[i] == 0
  {
    assert EncodeU64(0) == [0, 0, 0, 0, 0, 0, 0, 0];
    forall i | lo <= i < lo + 8
      ensures r[i] == 0
    {
      assert r[i] == r[lo..lo + 8][i - lo];
    }
  }

  /** Offsets inside `[tag] + a + b + c + d + e` for the create-stream field widths. */
  lemma CreateLayoutSlices(r: seq<Byte>, tag: Byte, a: seq<Byte>, b: seq<Byte>, c: seq<Byte>, d: seq<Byte>, e: seq<Byte>)
    requires |a| == 8 && |b| == 8 && |c| == 32 && |d| == 8 && |e| == 8
    requires r == [tag] + a + b + c + d + e
    ensures |r| == 65 && r[0] == tag
    ensures r[1..9] == a && r[9..17] == b && r[17..49] == c && r[49..57] == d && r[57..65] == e
  {
  }

  lemma CreateStreamDataBytes(x: CreateStreamInput)
    requires x.Valid()
    ensures InstructionData(CreateStream(x)) ==
      [CREATE_STREAM_TAG] + EncodeU64(x.startTime) + EncodeU64(x.endTime) + x.receiver +
      EncodeU64(x.lamportsWithdrawn) + EncodeU64(x.amountSecond)
  {
    EncodeCreateStreamInputLayout(x);
    var body := EncodeCreateStreamInput(x);
    assert InstructionData(CreateStream(x)) == [CREATE_STREAM_TAG] + body;
  }

  /** The create-stream data `createStream` sends: tag 1 and the struct with
      `lamports_withdrawn` fixed at 0. */
  function CreateStreamData(startTime: nat, endTime: nat, receiver: seq<Byte>, amountSecond: nat): (r: seq<Byte>)
    requires IsU64(startTime) && IsU64(endTime) && IsU64(amountSecond) && |receiver| == 32
    ensures |r| == 65 && r[0] == 1
    ensures r[1..9] == EncodeU64(startTime) && r[9..17] == EncodeU64(endTime)
    ensures r[17..49] == receiver
    ensures forall i :: 49 <= i < 57 ==> r[i] == 0
    ensures r[57..65] == EncodeU64(amountSecond)
    ensures ParseInstructionData(r) == Some(CreateStream(CreateStreamInput(startTime, endTime, receiver, 0, amountSecond)))
  {
    var input := CreateStreamInput(startTime, endTime, receiver, 0, amountSecond);
    var r := InstructionData(CreateStream(input));
    InstructionDataRoundTrip(CreateStream(input));
    CreateStreamDataBytes(input);
    CreateLayoutSlices(r, CREATE_STREAM_TAG, EncodeU64(startTime), EncodeU64(endTime), receiver, EncodeU64(0), EncodeU64(amountSecond));
    ZeroField(r, 49);
    r
  }

  /** The withdraw data `withdraw` sends: tag 2 and the amount as a little-endian `u64`. */
  function WithdrawData(amount: nat): (r: seq<Byte>)
    requires IsU64(amount)
    ensures |r| == 9 && r[0] == 2
    ensures DecodeLE(r[1..]) == amount
    ensures ParseInstructionData(r) == Some(Withdraw(WithdrawInput(amount)))
  {
    var ins := Withdraw(WithdrawInput(amount));
    InstructionDataRoundTrip(ins);
    var r := InstructionData(ins);
    assert r[1..] == EncodeU64(amount);
    r
  }

  /** The cancel data `cancelStream` sends: the tag alone. */
  function CancelData(): (r: seq<Byte>)
    ensures |r| == 1 && r[0] == 3
    ensures ParseInstructionData(r) == Some(Cancel)
  {
    InstructionData(Cancel)
  }

  /** The create-stream data as `createStream` builds it, out-of-range times
      and rates included: `None` where serialisation throws. */
  function TryCreateStreamData(startTime: nat, endTime: nat, receiver: seq<Byte>, amountSecond: nat)
    : (r: Option<seq<Byte>>)
    requires |receiver| == 32
    ensures r.Some? <==> IsU64(startTime) && IsU64(endTime) && IsU64(amountSecond)
    ensures r.Some? ==> r.value == CreateStreamData(startTime, endTime, receiver, amountSecond)
  {
    match SerializeCreateStreamInput(CreateStreamInput(startTime, endTime, receiver, 0, amountSecond))
    case None => None
    case Some(body) => Some([CREATE_STREAM_TAG] + body)
  }

  /** The withdraw data as `withdraw` builds it, for any amount: `None` where serialisation throws. */
  function TryWithdrawData(amount: nat): (r: Option<seq<Byte>>)
    ensures r.Some? <==> IsU64(amount)
    ensures r.Some? ==> r.value == WithdrawData(amount)
  {
    match SerializeWithdrawInput(WithdrawInput(amount))
    case None => None
    case Some(body) => Some([WITHDRAW_TAG] + body)
  }
}
