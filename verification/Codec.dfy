/**
 * The interpreted protobuf codec (`apps/extension/src/shared/protobufNoEval.ts`): encoder and decoder
 * driven by a schema, over the Protocol Buffers wire format ("Encoding": Base 128 Varints, Message
 * Structure, Length-Delimited Records, Packed Repeated Fields).
 */
module Codec {
  import opened Wrappers
  import opened Bytes

  const RECURSION_LIMIT := 100
  const MAX_VARINT_BYTES := 10

  /** Enum fields are UInt32 fields; strings are Blob fields holding their UTF-8 bytes. */
  datatype Kind = UInt32 | UInt64 | Bool | Blob | Message(index: nat)

  datatype Field = Field(id: nat, kind: Kind, repeated: bool, packed: bool)

  /** Message types by index, each with its fields in id order. */
  type Schema = seq<seq<Field>>

  datatype Value = Num(n: nat) | Text(bytes: Bytes) | Msg(fields: seq<Entry>)

  /** A field that is set: its value, or the items of a list. An empty list is a field that is not set. */
  datatype Entry = Entry(id: nat, values: seq<Value>)

  predicate IsNumeric(kind: Kind) {
    kind == UInt32 || kind == UInt64 || kind == Bool
  }

  // -------------------------------------------------------------------------
  // Varints
  // -------------------------------------------------------------------------

  function Varint(n: nat): (bytes: Bytes)
    ensures bytes != []
  {
    if n < 128 then [n as byte] else [(n % 128 + 128) as byte] + Varint(n / 128)
  }

  datatype Read<+T> = Read(value: T, rest: Bytes)

  /** A varint of at most `limit` bytes; None when the bytes end or the varint is longer. */
  function ReadVarint(bytes: Bytes, limit: nat): (r: Option<Read<nat>>)
    ensures r.Some? ==> |r.value.rest| < |bytes|
  {
    if bytes == [] || limit == 0 then None
    else
      var b := bytes[0] as int;
      if b < 128 then Some(Read(b, bytes[1..]))
      else
        var rest := ReadVarint(bytes[1..], limit - 1);
        if rest.None? then None else Some(Read(b - 128 + 128 * rest.value.value, rest.value.rest))
  }

  /** `reader.uint32()`: the low 32 bits. */
  function ReadUInt32(bytes: Bytes): (n: Option<Read<nat>>)
    ensures n.Some? ==> |n.value.rest| < |bytes|
  {
    var r := ReadVarint(bytes, MAX_VARINT_BYTES);
    if r.None? then None else Some(Read(r.value.value % U32_MODULUS, r.value.rest))
  }

  /** A length and as many bytes; None when fewer are left. */
  function ReadBytes(bytes: Bytes): (r: Option<Read<Bytes>>)
    ensures r.Some? ==> |r.value.rest| < |bytes|
  {
    var n := ReadUInt32(bytes);
    if n.None? || n.value.value > |n.value.rest| then None
    else Some(Read(n.value.rest[..n.value.value], n.value.rest[n.value.value..]))
  }

  function ReadNumber(kind: Kind, bytes: Bytes): (n: Option<Read<nat>>)
    requires IsNumeric(kind)
    ensures n.Some? ==> |n.value.rest| < |bytes|
  {
    var r := ReadVarint(bytes, MAX_VARINT_BYTES);
    if r.None? then None
    else
      Some(Read(match kind
                case UInt32 => r.value.value % U32_MODULUS
                case UInt64 => r.value.value % U64_MODULUS
                case _ => if r.value.value % U32_MODULUS != 0 then 1 else 0,
                r.value.rest))
  }

  /** `skipType`: the rest after a value of the wire type; groups are not supported. */
  function Skip(wire: nat, bytes: Bytes): (rest: Option<Bytes>)
    ensures rest.Some? ==> |rest.value| < |bytes|
  {
    if wire == 0 then
      var r := ReadVarint(bytes, MAX_VARINT_BYTES);
      if r.None? then None else Some(r.value.rest)
    else if wire == 1 then (if |bytes| < 8 then None else Some(bytes[8..]))
    else if wire == 2 then
      var r := ReadBytes(bytes);
      if r.None? then None else Some(r.value.rest)
    else if wire == 5 then (if |bytes| < 4 then None else Some(bytes[4..]))
    else None
  }

  // -------------------------------------------------------------------------
  // Encoding
  // -------------------------------------------------------------------------

  function Tag(id: nat, wire: nat): Bytes {
    Varint(id * 8 + wire)
  }

  /** `fork` ... `ldelim`: the bytes behind their length. */
  function Delimited(bytes: Bytes): Bytes {
    Varint(|bytes|) + bytes
  }

  /** The values of a field; none when it is not set. */
  function Get(m: seq<Entry>, id: nat): seq<Value> {
    if m == [] then [] else if m[0].id == id then m[0].values else Get(m[1..], id)
  }

  /** One value with its tag; None when it is not a value of the field or nested too deep. */
  function EncodeItem(s: Schema, f: Field, v: Value, depth: nat): Option<Bytes>
    decreases RECURSION_LIMIT + 1 - depth, 1
  {
    match f.kind
    case Message(k) =>
      if !v.Msg? || depth > RECURSION_LIMIT then None
      else
        var inner := EncodeMessage(s, k, v.fields, depth + 1);
        if inner.None? then None else Some(Tag(f.id, 2) + Delimited(inner.value))
    case Blob => if v.Text? then Some(Tag(f.id, 2) + Delimited(v.bytes)) else None
    case _ => if v.Num? then Some(Tag(f.id, 0) + Varint(v.n)) else None
  }

  function EncodeItems(s: Schema, f: Field, values: seq<Value>, depth: nat): Option<Bytes>
    decreases RECURSION_LIMIT + 1 - depth, 2, |values|
  {
    if values == [] then Some([])
    else
      var first := EncodeItem(s, f, values[0], depth);
      var rest := EncodeItems(s, f, values[1..], depth);
      if first.None? || rest.None? then None else Some(first.value + rest.value)
  }

  /** The payload of a packed list. */
  function Packed(values: seq<Value>): Option<Bytes> {
    if values == [] then Some([])
    else
      var rest := Packed(values[1..]);
      if !values[0].Num? || rest.None? then None else Some(Varint(values[0].n) + rest.value)
  }

  function EncodeField(s: Schema, f: Field, values: seq<Value>, depth: nat): Option<Bytes>
    decreases RECURSION_LIMIT + 1 - depth, 3
  {
    if f.repeated && f.packed && IsNumeric(f.kind) && values != [] then
      var payload := Packed(values);
      if payload.None? then None else Some(Tag(f.id, 2) + Delimited(payload.value))
    else EncodeItems(s, f, values, depth)
  }

  /** The set fields of a message, in id order. */
  function EncodeFields(s: Schema, fields: seq<Field>, m: seq<Entry>, depth: nat): Option<Bytes>
    decreases RECURSION_LIMIT + 1 - depth, 4, |fields|
  {
    if fields == [] then Some([])
    else
      var first := EncodeField(s, fields[0], Get(m, fields[0].id), depth);
      var rest := EncodeFields(s, fields[1..], m, depth);
      if first.None? || rest.None? then None else Some(first.value + rest.value)
  }

  /** None: the message is nested deeper than the recursion limit, or is not a message of the type. */
  function EncodeMessage(s: Schema, t: nat, m: seq<Entry>, depth: nat): Option<Bytes>
    decreases RECURSION_LIMIT + 1 - depth, 5
  {
    if depth > RECURSION_LIMIT || t >= |s| then None else EncodeFields(s, s[t], m, depth)
  }

  // -------------------------------------------------------------------------
  // Decoding
  // -------------------------------------------------------------------------

  function FieldById(fields: seq<Field>, id: nat): Option<Field> {
    if fields == [] then None else if fields[0].id == id then Some(fields[0]) else FieldById(fields[1..], id)
  }

  /** Sets a field, or appends to its list; a message keeps its entries in id order. */
  function Stored(m: seq<Entry>, f: Field, values: seq<Value>): seq<Entry> {
    if m == [] then (if values == [] then [] else [Entry(f.id, values)])
    else
      var init, last := m[..|m| - 1], m[|m| - 1];
      if last.id < f.id then (if values == [] then m else m + [Entry(f.id, values)])
      else if last.id == f.id then init + [Entry(f.id, if f.repeated then last.values + values else values)]
      else Stored(init, f, values) + [last]
  }

  /** The numbers of a packed payload; None when it does not end with one. */
  function Unpacked(kind: Kind, bytes: Bytes): Option<seq<Value>>
    requires IsNumeric(kind)
    decreases |bytes|
  {
    if bytes == [] then Some([])
    else
      var r := ReadNumber(kind, bytes);
      if r.None? then None
      else
        var rest := Unpacked(kind, r.value.rest);
        if rest.None? then None else Some([Num(r.value.value)] + rest.value)
  }

  /** One value of the field's own type; its wire type is not compared, except that a packed list has wire type 2. */
  function DecodeValue(s: Schema, f: Field, wire: nat, bytes: Bytes, depth: nat)
    : (v: Option<Read<seq<Value>>>)
    ensures v.Some? ==> |v.value.rest| < |bytes|
    decreases RECURSION_LIMIT + 1 - depth, 0
  {
    match f.kind
    case Message(k) =>
      var r := ReadBytes(bytes);
      if r.None? || depth > RECURSION_LIMIT then None
      else
        var inner := DecodeMessage(s, k, r.value.value, depth + 1);
        if inner.None? then None else Some(Read([Msg(inner.value)], r.value.rest))
    case Blob =>
      var r := ReadBytes(bytes);
      if r.None? then None else Some(Read([Text(r.value.value)], r.value.rest))
    case _ =>
      if f.repeated && wire == 2 then
        var r := ReadBytes(bytes);
        if r.None? then None
        else
          var numbers := Unpacked(f.kind, r.value.value);
          if numbers.None? then None else Some(Read(numbers.value, r.value.rest))
      else
        var r := ReadNumber(f.kind, bytes);
        if r.None? then None else Some(Read([Num(r.value.value)], r.value.rest))
  }

  /** The fields of the bytes on top of `m`; fields the schema does not know are skipped. */
  function DecodeFields(s: Schema, t: nat, bytes: Bytes, m: seq<Entry>, depth: nat): Option<seq<Entry>>
    requires t < |s|
    decreases RECURSION_LIMIT + 1 - depth, 1, |bytes|
  {
    if bytes == [] then Some(m)
    else
      var tag := ReadUInt32(bytes);
      if tag.None? then None
      else
        var f := FieldById(s[t], tag.value.value / 8);
        if f.None? then
          var rest := Skip(tag.value.value % 8, tag.value.rest);
          if rest.None? then None else DecodeFields(s, t, rest.value, m, depth)
        else
          var v := DecodeValue(s, f.value, tag.value.value % 8, tag.value.rest, depth);
          if v.None? then None
          else DecodeFields(s, t, v.value.rest, Stored(m, f.value, v.value.value), depth)
  }

  /** None: malformed, or nested deeper than the recursion limit. */
  function DecodeMessage(s: Schema, t: nat, bytes: Bytes, depth: nat): Option<seq<Entry>>
    decreases RECURSION_LIMIT + 1 - depth, 2
  {
    if depth > RECURSION_LIMIT || t >= |s| then None else DecodeFields(s, t, bytes, [], depth)
  }

  // -------------------------------------------------------------------------
  // Reading back what was written
  // -------------------------------------------------------------------------

  function Pow128(n: nat): nat {
    if n == 0 then 1 else 128 * Pow128(n - 1)
  }

  lemma {:induction false} VarintReads(n: nat, rest: Bytes, limit: nat)
    requires 1 <= limit && n < Pow128(limit)
    ensures ReadVarint(Varint(n) + rest, limit) == Some(Read(n, rest))
  {
    var bytes := Varint(n) + rest;
    if n < 128 {
      assert bytes[1..] == rest;
    } else {
      VarintReads(n / 128, rest, limit - 1);
      assert bytes[1..] == Varint(n / 128) + rest;
    }
  }

  lemma TenBytesHold64Bits()
    ensures U64_MODULUS <= Pow128(MAX_VARINT_BYTES)
  {
    assert Pow128(5) == 34_359_738_368;
    assert Pow128(10) == 34_359_738_368 * 34_359_738_368;
  }

  lemma UInt64Reads(n: nat, rest: Bytes)
    requires n < U64_MODULUS
    ensures ReadVarint(Varint(n) + rest, MAX_VARINT_BYTES) == Some(Read(n, rest))
  {
    hide Varint, ReadVarint, Pow128;
    TenBytesHold64Bits();
    VarintReads(n, rest, MAX_VARINT_BYTES);
  }

  lemma UInt32Reads(n: nat, rest: Bytes)
    requires n < U32_MODULUS
    ensures ReadUInt32(Varint(n) + rest) == Some(Read(n, rest))
  {
    hide Varint, ReadVarint;
    UInt64Reads(n, rest);
  }

  /** Numbers of the field's range are read back as they were written. */
  predicate InRange(kind: Kind, n: nat) {
    match kind
    case UInt32 => n < U32_MODULUS
    case UInt64 => n < U64_MODULUS
    case Bool => n <= 1
    case _ => false
  }

  lemma NumberReads(kind: Kind, n: nat, rest: Bytes)
    requires IsNumeric(kind) && InRange(kind, n)
    ensures ReadNumber(kind, Varint(n) + rest) == Some(Read(n, rest))
  {
    hide Varint, ReadVarint;
    UInt64Reads(n, rest);
  }

  lemma DelimitedReads(bytes: Bytes, rest: Bytes)
    requires |bytes| < U32_MODULUS
    ensures ReadBytes(Delimited(bytes) + rest) == Some(Read(bytes, rest))
  {
    hide Varint, ReadUInt32;
    assert Delimited(bytes) + rest == Varint(|bytes|) + (bytes + rest);
    UInt32Reads(|bytes|, bytes + rest);
    assert (bytes + rest)[..|bytes|] == bytes && (bytes + rest)[|bytes|..] == rest;
  }

  lemma {:induction false} PackedReads(kind: Kind, values: seq<Value>)
    requires IsNumeric(kind) && forall v | v in values :: v.Num? && InRange(kind, v.n)
    ensures Packed(values).Some? && Unpacked(kind, Packed(values).value) == Some(values)
  {
    hide Varint, ReadNumber, InRange;
    if values != [] {
      PackedReads(kind, values[1..]);
      NumberReads(kind, values[0].n, Packed(values[1..]).value);
      assert [values[0]] + values[1..] == values;
    }
  }

  // -------------------------------------------------------------------------
  // Schemas and messages
  // -------------------------------------------------------------------------

  const MAX_FIELD_ID := 536_870_911

  ghost predicate ValidFields(s: Schema, fields: seq<Field>) {
    && (forall f | f in fields :: 1 <= f.id <= MAX_FIELD_ID && (f.kind.Message? ==> f.kind.index < |s|))
    && (forall i, j | 0 <= i < j < |fields| :: fields[i].id < fields[j].id)
  }

  ghost predicate ValidSchema(s: Schema) {
    forall t | 0 <= t < |s| :: ValidFields(s, s[t])
  }

  /** The second schema knows some of the fields of the first. */
  ghost predicate SubSchema(sub: Schema, s: Schema) {
    |sub| == |s| && forall t | 0 <= t < |s| :: forall f | f in sub[t] :: f in s[t]
  }

  /** A canonical value of the kind, nested no deeper than the recursion limit. */
  ghost predicate ConformsValue(s: Schema, kind: Kind, v: Value, depth: nat)
    decreases RECURSION_LIMIT + 1 - depth, 0
  {
    match kind
    case Message(k) => v.Msg? && depth < RECURSION_LIMIT && Conforms(s, k, v.fields, depth + 1)
    case Blob => v.Text?
    case _ => v.Num? && InRange(kind, v.n)
  }

  ghost predicate ConformsEntry(s: Schema, fields: seq<Field>, e: Entry, depth: nat)
    decreases RECURSION_LIMIT + 1 - depth, 1
  {
    var f := FieldById(fields, e.id);
    && f.Some? && e.values != [] && (!f.value.repeated ==> |e.values| == 1)
    && forall v | v in e.values :: ConformsValue(s, f.value.kind, v, depth)
  }

  /**
   * A canonical message: set fields of the type, in id order, single values and non-empty lists of canonical values.
   */
  ghost predicate Conforms(s: Schema, t: nat, m: seq<Entry>, depth: nat)
    decreases RECURSION_LIMIT + 1 - depth, 2
  {
    && depth <= RECURSION_LIMIT && t < |s|
    && (forall i, j | 0 <= i < j < |m| :: m[i].id < m[j].id)
    && (forall e | e in m :: ConformsEntry(s, s[t], e, depth))
  }

  /** What a schema that knows fewer fields keeps of a message. */
  ghost function ProjectValue(sub: Schema, kind: Kind, v: Value, depth: nat): Value
    decreases RECURSION_LIMIT + 1 - depth, 0
  {
    if kind.Message? && v.Msg? && depth < RECURSION_LIMIT && kind.index < |sub|
    then Msg(ProjectFields(sub, sub[kind.index], v.fields, depth + 1)) else v
  }

  ghost function ProjectValues(sub: Schema, kind: Kind, values: seq<Value>, depth: nat): seq<Value>
    decreases RECURSION_LIMIT + 1 - depth, 1, |values|
  {
    if values == [] then []
    else [ProjectValue(sub, kind, values[0], depth)] + ProjectValues(sub, kind, values[1..], depth)
  }

  ghost function ProjectFields(sub: Schema, fields: seq<Field>, m: seq<Entry>, depth: nat): seq<Entry>
    decreases RECURSION_LIMIT + 1 - depth, 2, |m|
  {
    if m == [] then []
    else
      var f := FieldById(fields, m[0].id);
      (if f.Some? then [Entry(m[0].id, ProjectValues(sub, f.value.kind, m[0].values, depth))] else [])
      + ProjectFields(sub, fields, m[1..], depth)
  }
}
