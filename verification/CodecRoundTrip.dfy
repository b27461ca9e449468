/**
 * What the codec promises: canonical messages encode, decoding gives them back and consumes every
 * byte, a schema with fewer fields reads what it knows, and different messages have different bytes.
 */
module CodecRoundTrip {
  import opened Wrappers
  import opened Bytes
  import opened Codec

  // -------------------------------------------------------------------------
  // Canonical messages encode
  // -------------------------------------------------------------------------

  lemma {:induction false} FieldFound(fields: seq<Field>, f: Field)
    requires f in fields && forall i, j | 0 <= i < j < |fields| :: fields[i].id < fields[j].id
    ensures FieldById(fields, f.id) == Some(f)
  {
    if fields[0] != f {
      assert f in fields[1..];
      FieldFound(fields[1..], f);
    }
  }

  lemma {:induction false} FieldByIdSound(fields: seq<Field>, id: nat)
    ensures FieldById(fields, id).Some? ==>
              FieldById(fields, id).value in fields && FieldById(fields, id).value.id == id
  {
    if fields != [] {
      FieldByIdSound(fields[1..], id);
    }
  }

  lemma {:induction false} GetSound(m: seq<Entry>, id: nat)
    ensures Get(m, id) == [] || exists e :: e in m && e.id == id && e.values == Get(m, id)
  {
    if m != [] {
      GetSound(m[1..], id);
    }
  }

  lemma ItemEncodes(s: Schema, f: Field, v: Value, depth: nat)
    requires ValidSchema(s) && ConformsValue(s, f.kind, v, depth)
    ensures EncodeItem(s, f, v, depth).Some?
    decreases RECURSION_LIMIT + 1 - depth, 1
  {
    if f.kind.Message? {
      MessageEncodes(s, f.kind.index, v.fields, depth + 1);
    }
    hide Conforms, EncodeMessage, InRange, ValidSchema;
  }

  lemma {:induction false} ItemsEncode(s: Schema, f: Field, values: seq<Value>, depth: nat)
    requires ValidSchema(s) && forall v | v in values :: ConformsValue(s, f.kind, v, depth)
    ensures EncodeItems(s, f, values, depth).Some?
    decreases RECURSION_LIMIT + 1 - depth, 2, |values|
  {
    if values != [] {
      ItemEncodes(s, f, values[0], depth);
      ItemsEncode(s, f, values[1..], depth);
    }
  }

  lemma NumbersOf(s: Schema, kind: Kind, values: seq<Value>, depth: nat)
    requires IsNumeric(kind) && forall v | v in values :: ConformsValue(s, kind, v, depth)
    ensures forall v | v in values :: v.Num? && InRange(kind, v.n)
  {
  }

  lemma FieldEncodes(s: Schema, f: Field, values: seq<Value>, depth: nat)
    requires ValidSchema(s) && forall v | v in values :: ConformsValue(s, f.kind, v, depth)
    ensures EncodeField(s, f, values, depth).Some?
    decreases RECURSION_LIMIT + 1 - depth, 3
  {
    ItemsEncode(s, f, values, depth);
    if IsNumeric(f.kind) {
      NumbersOf(s, f.kind, values, depth);
      PackedReads(f.kind, values);
    }
    hide ConformsValue, EncodeItems, Packed, InRange, ValidSchema;
  }

  lemma {:induction false} FieldsEncode(s: Schema, t: nat, i: nat, m: seq<Entry>, depth: nat)
    requires ValidSchema(s) && t < |s| && i <= |s[t]| && forall e | e in m :: ConformsEntry(s, s[t], e, depth)
    ensures EncodeFields(s, s[t][i..], m, depth).Some?
    decreases RECURSION_LIMIT + 1 - depth, 4, |s[t]| - i
  {
    if i < |s[t]| {
      var f := s[t][i];
      FieldsEncode(s, t, i + 1, m, depth);
      ValuesConform(s, t, f, m, depth);
      FieldEncodes(s, f, Get(m, f.id), depth);
      assert s[t][i..][0] == f && s[t][i..][1..] == s[t][i + 1..];
      hide EncodeField, Get, ValidSchema;
    }
  }

  /** The values a field is encoded from are canonical. */
  lemma ValuesConform(s: Schema, t: nat, f: Field, m: seq<Entry>, depth: nat)
    requires ValidSchema(s) && t < |s| && f in s[t] && forall e | e in m :: ConformsEntry(s, s[t], e, depth)
    ensures forall v | v in Get(m, f.id) :: ConformsValue(s, f.kind, v, depth)
    ensures !f.repeated ==> |Get(m, f.id)| <= 1
  {
    GetSound(m, f.id);
    FieldFound(s[t], f);
    hide ConformsValue, Get;
  }

  /** Every canonical message within the recursion limit encodes. */
  lemma MessageEncodes(s: Schema, t: nat, m: seq<Entry>, depth: nat)
    requires ValidSchema(s) && Conforms(s, t, m, depth)
    ensures EncodeMessage(s, t, m, depth).Some?
    decreases RECURSION_LIMIT + 1 - depth, 5
  {
    FieldsEncode(s, t, 0, m, depth);
    assert s[t][0..] == s[t];
  }

  // -------------------------------------------------------------------------
  // Stored values
  // -------------------------------------------------------------------------

  /** The message ends at or before the field. */
  ghost predicate EndsBy(m: seq<Entry>, id: nat) {
    m == [] || m[|m| - 1].id <= id
  }

  lemma StoredTwice(m: seq<Entry>, f: Field, xs: seq<Value>, ys: seq<Value>)
    requires EndsBy(m, f.id) && xs != [] && f.repeated
    ensures EndsBy(Stored(m, f, xs), f.id)
    ensures Stored(Stored(m, f, xs), f, ys) == Stored(m, f, xs + ys)
  {
    var once := Stored(m, f, xs);
    if m == [] {
      assert once == [Entry(f.id, xs)];
      assert once[..0] + [Entry(f.id, xs + ys)] == [Entry(f.id, xs + ys)];
    } else if m[|m| - 1].id < f.id {
      assert once == m + [Entry(f.id, xs)];
      assert once[..|m|] == m;
    } else {
      var init, last := m[..|m| - 1], m[|m| - 1];
      assert once == init + [Entry(f.id, last.values + xs)];
      assert once[..|init|] == init;
      assert (last.values + xs) + ys == last.values + (xs + ys);
    }
  }

  // -------------------------------------------------------------------------
  // Decoding what was encoded
  // -------------------------------------------------------------------------

  /** What decoding `values` of a field leaves on top of `m`. */
  ghost function Added(sub: Schema, t: nat, f: Field, values: seq<Value>, m: seq<Entry>, depth: nat): seq<Entry>
    requires t < |sub|
  {
    if FieldById(sub[t], f.id).None? || values == [] then m else Stored(m, f, ProjectValues(sub, f.kind, values, depth))
  }

  /** A tag is read back as the field and the wire type. */
  lemma TagReads(id: nat, wire: nat, rest: Bytes)
    requires id <= MAX_FIELD_ID && wire < 8
    ensures ReadUInt32(Tag(id, wire) + rest) == Some(Read(id * 8 + wire, rest))
    ensures (id * 8 + wire) / 8 == id && (id * 8 + wire) % 8 == wire
    ensures Tag(id, wire) != []
  {
    UInt32Reads(id * 8 + wire, rest);
    hide ReadUInt32, Varint;
  }

  /** One step of the decoder on a field it knows. */
  lemma KnownStep(sub: Schema, t: nat, f: Field, wire: nat, body: Bytes, rest: Bytes, v: seq<Value>, m: seq<Entry>,
                  depth: nat)
    requires t < |sub| && FieldById(sub[t], f.id) == Some(f) && f.id <= MAX_FIELD_ID && wire < 8
    requires DecodeValue(sub, f, wire, body + rest, depth) == Some(Read(v, rest))
    ensures DecodeFields(sub, t, Tag(f.id, wire) + body + rest, m, depth) ==
            DecodeFields(sub, t, rest, Stored(m, f, v), depth)
  {
    TagReads(f.id, wire, body + rest);
    assert Tag(f.id, wire) + body + rest == Tag(f.id, wire) + (body + rest);
    hide DecodeValue, ReadUInt32, Tag, Stored, Skip;
  }

  /** One step of the decoder on a field it does not know. */
  lemma UnknownStep(sub: Schema, t: nat, id: nat, wire: nat, body: Bytes, rest: Bytes, m: seq<Entry>, depth: nat)
    requires t < |sub| && FieldById(sub[t], id).None? && id <= MAX_FIELD_ID && wire < 8
    requires Skip(wire, body + rest) == Some(rest)
    ensures DecodeFields(sub, t, Tag(id, wire) + body + rest, m, depth) == DecodeFields(sub, t, rest, m, depth)
  {
    TagReads(id, wire, body + rest);
    assert Tag(id, wire) + body + rest == Tag(id, wire) + (body + rest);
    hide DecodeValue, ReadUInt32, Tag, Stored, Skip;
  }

  lemma DelimitedSkips(bytes: Bytes, rest: Bytes)
    requires |bytes| < U32_MODULUS
    ensures Skip(2, Delimited(bytes) + rest) == Some(rest)
  {
    DelimitedReads(bytes, rest);
    hide Delimited, ReadBytes;
  }

  lemma NumberSkips(n: nat, rest: Bytes)
    requires n < U64_MODULUS
    ensures Skip(0, Varint(n) + rest) == Some(rest)
  {
    UInt64Reads(n, rest);
    hide Varint, ReadVarint;
  }

  /** Both schemas are well formed and the second knows some of the first one's fields. */
  ghost predicate Compatible(s: Schema, sub: Schema) {
    ValidSchema(s) && ValidSchema(sub) && SubSchema(sub, s)
  }

  /** A field of the writer's schema is unknown to the reader, or the same there. */
  lemma SameField(s: Schema, sub: Schema, t: nat, f: Field)
    requires Compatible(s, sub) && t < |s| && f in s[t]
    ensures t < |sub| && f.id <= MAX_FIELD_ID
    ensures FieldById(sub[t], f.id).None? || FieldById(sub[t], f.id) == Some(f)
  {
    assert ValidFields(s, s[t]) && ValidFields(sub, sub[t]);
    FieldByIdSound(sub[t], f.id);
    if FieldById(sub[t], f.id).Some? {
      var g := FieldById(sub[t], f.id).value;
      assert g in s[t];
      var i, j :| 0 <= i < |s[t]| && 0 <= j < |s[t]| && s[t][i] == f && s[t][j] == g;
      assert i == j;
    }
  }

  /** Reading back one encoded value, given what a nested message decodes to. */
  lemma ValueDecodes(s: Schema, sub: Schema, f: Field, v: Value, depth: nat, rest: Bytes)
    requires Compatible(s, sub) && ConformsValue(s, f.kind, v, depth) && depth <= RECURSION_LIMIT
    requires EncodeItem(s, f, v, depth).Some? && |EncodeItem(s, f, v, depth).value| < U32_MODULUS
    requires f.kind.Message? && v.Msg? ==>
               && DecodeMessage(sub, f.kind.index, EncodeMessage(s, f.kind.index, v.fields, depth + 1).value, depth + 1)
                  == Some(ProjectFields(sub, sub[f.kind.index], v.fields, depth + 1))
               && f.kind.index < |sub|
    ensures var wire, body := WireOf(f.kind), BodyOf(s, f, v, depth);
            && EncodeItem(s, f, v, depth).value == Tag(f.id, wire) + body
            && DecodeValue(sub, f, wire, body + rest, depth) == Some(Read([ProjectValue(sub, f.kind, v, depth)], rest))
            && Skip(wire, body + rest) == Some(rest)
  {
    match f.kind
    case Message(k) =>
      var inner := EncodeMessage(s, k, v.fields, depth + 1).value;
      DelimitedReads(inner, rest);
      DelimitedSkips(inner, rest);
      hide Delimited, ReadBytes, Skip, Tag, EncodeMessage, DecodeMessage, ProjectFields, Conforms, Compatible;
    case Blob =>
      DelimitedReads(v.bytes, rest);
      DelimitedSkips(v.bytes, rest);
      hide Delimited, ReadBytes, Skip, Tag;
    case _ =>
      NumberReads(f.kind, v.n, rest);
      NumberSkips(v.n, rest);
      hide Varint, ReadNumber, Skip, Tag;
  }

  function WireOf(kind: Kind): nat {
    if IsNumeric(kind) then 0 else 2
  }

  /** What follows the tag of an encoded value. */
  ghost function BodyOf(s: Schema, f: Field, v: Value, depth: nat): Bytes
    requires EncodeItem(s, f, v, depth).Some?
  {
    match f.kind
    case Message(k) => Delimited(EncodeMessage(s, k, v.fields, depth + 1).value)
    case Blob => Delimited(v.bytes)
    case _ => Varint(v.n)
  }

  /** One encoded value: decoded by a schema that knows the field, skipped by one that does not. */
  lemma ItemDecodes(s: Schema, sub: Schema, t: nat, f: Field, v: Value, m: seq<Entry>, depth: nat, rest: Bytes)
    requires Compatible(s, sub) && t < |s| && f in s[t] && depth <= RECURSION_LIMIT
             && ConformsValue(s, f.kind, v, depth)
    requires EncodeItem(s, f, v, depth).Some? && |EncodeItem(s, f, v, depth).value| < U32_MODULUS
    ensures t < |sub|
    ensures DecodeFields(sub, t, EncodeItem(s, f, v, depth).value + rest, m, depth) ==
            DecodeFields(sub, t, rest, Added(sub, t, f, [v], m, depth), depth)
    decreases RECURSION_LIMIT + 1 - depth, 1
  {
    SameField(s, sub, t, f);
    if f.kind.Message? {
      NestedDecodes(s, sub, f, v, depth);
    }
    ValueDecodes(s, sub, f, v, depth, rest);
    hide DecodeFields, DecodeValue, EncodeItem, Skip, Compatible, ConformsValue, BodyOf;
    var wire, body := WireOf(f.kind), BodyOf(s, f, v, depth);
    if FieldById(sub[t], f.id).Some? {
      KnownStep(sub, t, f, wire, body, rest, [ProjectValue(sub, f.kind, v, depth)], m, depth);
      SingleValue(sub, f.kind, v, depth);
    } else {
      UnknownStep(sub, t, f.id, wire, body, rest, m, depth);
    }
  }

  lemma SingleValue(sub: Schema, kind: Kind, v: Value, depth: nat)
    ensures ProjectValues(sub, kind, [v], depth) == [ProjectValue(sub, kind, v, depth)]
  {
    hide ProjectValue;
    assert [v][1..] == [];
  }

  /** The nested message of a value. */
  lemma NestedDecodes(s: Schema, sub: Schema, f: Field, v: Value, depth: nat)
    requires Compatible(s, sub) && depth <= RECURSION_LIMIT && f.kind.Message? && ConformsValue(s, f.kind, v, depth)
    requires EncodeItem(s, f, v, depth).Some? && |EncodeItem(s, f, v, depth).value| < U32_MODULUS
    ensures v.Msg? && f.kind.index < |sub|
    ensures DecodeMessage(sub, f.kind.index, EncodeMessage(s, f.kind.index, v.fields, depth + 1).value, depth + 1)
            == Some(ProjectFields(sub, sub[f.kind.index], v.fields, depth + 1))
    decreases RECURSION_LIMIT + 1 - depth, 0
  {
    assert |EncodeMessage(s, f.kind.index, v.fields, depth + 1).value| < U32_MODULUS;
    MessageDecodes(s, sub, f.kind.index, v.fields, depth + 1);
  }

  /** The values of a field one after the other. */
  lemma {:induction false} ItemsDecode(s: Schema, sub: Schema, t: nat, f: Field, values: seq<Value>, m: seq<Entry>,
                                       depth: nat, rest: Bytes)
    requires Compatible(s, sub) && t < |s| && f in s[t] && depth <= RECURSION_LIMIT
    requires forall v | v in values :: ConformsValue(s, f.kind, v, depth)
    requires EncodeItems(s, f, values, depth).Some? && |EncodeItems(s, f, values, depth).value| < U32_MODULUS
    requires EndsBy(m, f.id) && (f.repeated || |values| <= 1)
    ensures t < |sub|
    ensures DecodeFields(sub, t, EncodeItems(s, f, values, depth).value + rest, m, depth) ==
            DecodeFields(sub, t, rest, Added(sub, t, f, values, m, depth), depth)
    decreases RECURSION_LIMIT + 1 - depth, 2, |values|
  {
    if values == [] {
      assert EncodeItems(s, f, values, depth).value + rest == rest;
    } else {
      var first, more := EncodeItem(s, f, values[0], depth).value, EncodeItems(s, f, values[1..], depth).value;
      assert EncodeItems(s, f, values, depth).value == first + more;
      assert (first + more) + rest == first + (more + rest);
      hide DecodeFields, EncodeItem, EncodeItems, Compatible, ConformsValue, Stored, EndsBy;
      ItemDecodes(s, sub, t, f, values[0], m, depth, more + rest);
      AddedTwice(sub, t, f, values, m, depth);
      if |values| == 1 {
        assert values == [values[0]];
        NoItems(s, f, depth);
        assert values[1..] == [] && more + rest == rest;
      } else {
        ItemsDecode(s, sub, t, f, values[1..], Added(sub, t, f, [values[0]], m, depth), depth, rest);
      }
    }
  }

  lemma NoItems(s: Schema, f: Field, depth: nat)
    ensures EncodeItems(s, f, [], depth) == Some([])
  {
  }

  lemma AddedTwice(sub: Schema, t: nat, f: Field, values: seq<Value>, m: seq<Entry>, depth: nat)
    requires t < |sub| && values != [] && EndsBy(m, f.id) && (f.repeated || |values| <= 1)
    ensures f.repeated ==>
              EndsBy(Added(sub, t, f, [values[0]], m, depth), f.id)
              && Added(sub, t, f, values[1..], Added(sub, t, f, [values[0]], m, depth), depth) ==
                 Added(sub, t, f, values, m, depth)
    ensures |values| == 1 ==> Added(sub, t, f, [values[0]], m, depth) == Added(sub, t, f, values, m, depth)
  {
    if |values| == 1 {
      assert [values[0]] == values && values[1..] == [];
    }
    if f.repeated {
      SingleValue(sub, f.kind, values[0], depth);
      StoredTwice(m, f, ProjectValues(sub, f.kind, [values[0]], depth), ProjectValues(sub, f.kind, values[1..], depth));
    }
    hide Stored, ProjectValue, FieldById;
  }

  lemma {:induction false} NumbersProject(sub: Schema, kind: Kind, values: seq<Value>, depth: nat)
    requires IsNumeric(kind)
    ensures ProjectValues(sub, kind, values, depth) == values
  {
    if values != [] {
      NumbersProject(sub, kind, values[1..], depth);
      assert [values[0]] + values[1..] == values;
    }
  }

  /** A packed list. */
  lemma PackedDecodes(s: Schema, sub: Schema, t: nat, f: Field, values: seq<Value>, m: seq<Entry>, depth: nat,
                      rest: Bytes)
    requires Compatible(s, sub) && t < |s| && f in s[t] && IsNumeric(f.kind) && f.repeated && values != []
    requires forall v | v in values :: v.Num? && InRange(f.kind, v.n)
    requires Packed(values).Some? && |Packed(values).value| < U32_MODULUS
    ensures t < |sub|
    ensures DecodeFields(sub, t, Tag(f.id, 2) + Delimited(Packed(values).value) + rest, m, depth) ==
            DecodeFields(sub, t, rest, Added(sub, t, f, values, m, depth), depth)
  {
    var payload := Packed(values).value;
    SameField(s, sub, t, f);
    PackedReads(f.kind, values);
    DelimitedReads(payload, rest);
    DelimitedSkips(payload, rest);
    NumbersProject(sub, f.kind, values, depth);
    hide DecodeFields, Compatible, Packed, Unpacked, InRange, Delimited, ReadBytes, Skip, Tag, ProjectValues, Stored;
    if FieldById(sub[t], f.id).Some? {
      assert DecodeValue(sub, f, 2, Delimited(payload) + rest, depth) == Some(Read(values, rest));
      KnownStep(sub, t, f, 2, Delimited(payload), rest, values, m, depth);
    } else {
      UnknownStep(sub, t, f.id, 2, Delimited(payload), rest, m, depth);
    }
  }

  /** All values of one field. */
  lemma FieldDecodes(s: Schema, sub: Schema, t: nat, f: Field, values: seq<Value>, m: seq<Entry>, depth: nat,
                     rest: Bytes)
    requires Compatible(s, sub) && t < |s| && f in s[t] && depth <= RECURSION_LIMIT
    requires forall v | v in values :: ConformsValue(s, f.kind, v, depth)
    requires EncodeField(s, f, values, depth).Some? && |EncodeField(s, f, values, depth).value| < U32_MODULUS
    requires EndsBy(m, f.id) && (f.repeated || |values| <= 1)
    ensures t < |sub|
    ensures DecodeFields(sub, t, EncodeField(s, f, values, depth).value + rest, m, depth) ==
            DecodeFields(sub, t, rest, Added(sub, t, f, values, m, depth), depth)
    decreases RECURSION_LIMIT + 1 - depth, 3
  {
    if f.repeated && f.packed && IsNumeric(f.kind) && values != [] {
      NumbersOf(s, f.kind, values, depth);
      hide DecodeFields, Compatible, ConformsValue, InRange, Tag, Packed;
      PackedDecodes(s, sub, t, f, values, m, depth, rest);
    } else {
      hide DecodeFields, Compatible, ConformsValue, EncodeItems, EndsBy;
      ItemsDecode(s, sub, t, f, values, m, depth, rest);
    }
  }

  // -------------------------------------------------------------------------
  // Whole messages
  // -------------------------------------------------------------------------

  /** The entries of a message that are left when the fields before index `i` are done. */
  ghost predicate Remaining(s: Schema, t: nat, i: nat, m: seq<Entry>, depth: nat)
    requires t < |s| && i <= |s[t]|
  {
    && (forall j, k | 0 <= j < k < |m| :: m[j].id < m[k].id)
    && (forall e | e in m :: ConformsEntry(s, s[t], e, depth))
    && (forall e, j | e in m && 0 <= j < i :: s[t][j].id < e.id)
  }

  /** The next field is the first entry, or not set. */
  lemma NextField(s: Schema, t: nat, i: nat, m: seq<Entry>, depth: nat)
    requires ValidSchema(s) && t < |s| && i < |s[t]| && Remaining(s, t, i, m, depth)
    ensures var f := s[t][i];
            if m != [] && m[0].id == f.id
            then Get(m, f.id) == m[0].values && Remaining(s, t, i + 1, m[1..], depth)
            else Get(m, f.id) == [] && Remaining(s, t, i + 1, m, depth)
  {
    var f := s[t][i];
    assert ValidFields(s, s[t]);
    hide ConformsEntry;
    if m != [] && m[0].id == f.id {
      assert forall e | e in m[1..] :: e in m && m[0].id < e.id;
    } else {
      if m != [] {
        assert m[0] in m;
        EntryField(s, t, m[0], depth);
        var k :| 0 <= k < |s[t]| && s[t][k].id == m[0].id;
        assert k > i;
      }
      assert forall e | e in m :: f.id < e.id;
      GetSound(m, f.id);
    }
  }

  /** An entry belongs to a field of the type. */
  lemma EntryField(s: Schema, t: nat, e: Entry, depth: nat)
    requires t < |s| && ConformsEntry(s, s[t], e, depth)
    ensures exists k :: 0 <= k < |s[t]| && s[t][k].id == e.id
    ensures e.values != []
  {
    FieldByIdSound(s[t], e.id);
    hide ConformsValue;
  }

  /** Fields other than the first entry's do not see it. */
  lemma {:induction false} EncodesWithoutFirst(s: Schema, fields: seq<Field>, m: seq<Entry>, depth: nat)
    requires m != [] && forall f | f in fields :: f.id != m[0].id
    ensures EncodeFields(s, fields, m, depth) == EncodeFields(s, fields, m[1..], depth)
    decreases |fields|
  {
    if fields != [] {
      assert fields[0] in fields;
      EncodesWithoutFirst(s, fields[1..], m, depth);
      hide EncodeField;
    }
  }

  /** The encoding of the fields from index `i` on. */
  lemma EncodeUnfold(s: Schema, t: nat, i: nat, m: seq<Entry>, depth: nat)
    requires t < |s| && i < |s[t]| && EncodeFields(s, s[t][i..], m, depth).Some?
    ensures var f := s[t][i];
            && EncodeField(s, f, Get(m, f.id), depth).Some? && EncodeFields(s, s[t][i + 1..], m, depth).Some?
            && EncodeFields(s, s[t][i..], m, depth).value ==
               EncodeField(s, f, Get(m, f.id), depth).value + EncodeFields(s, s[t][i + 1..], m, depth).value
  {
    assert s[t][i..][0] == s[t][i] && s[t][i..][1..] == s[t][i + 1..];
    hide EncodeField, Get;
  }

  /** The message decoded so far ends before the next field. */
  ghost predicate EndsBefore(acc: seq<Entry>, fields: seq<Field>, i: nat) {
    acc != [] && i < |fields| ==> acc[|acc| - 1].id < fields[i].id
  }

  /** A field beyond the end of the message becomes its last entry. */
  lemma AddedAtEnd(sub: Schema, t: nat, f: Field, values: seq<Value>, acc: seq<Entry>, depth: nat)
    requires t < |sub| && (acc == [] || acc[|acc| - 1].id < f.id)
    ensures Added(sub, t, f, values, acc, depth) ==
            acc + (if FieldById(sub[t], f.id).Some? && values != []
                then [Entry(f.id, ProjectValues(sub, f.kind, values, depth))] else [])
  {
    hide ProjectValue, FieldById;
    assert acc + [] == acc;
  }

  /** What the next field adds to the message decoded so far. */
  lemma NextAdded(s: Schema, sub: Schema, t: nat, i: nat, m: seq<Entry>, acc: seq<Entry>, depth: nat)
    requires Compatible(s, sub) && t < |s| && i < |s[t]| && Remaining(s, t, i, m, depth) && EndsBefore(acc, s[t], i)
    ensures t < |sub|
    ensures var f := s[t][i];
            var rest := if m != [] && m[0].id == f.id then m[1..] else m;
            var acc' := Added(sub, t, f, Get(m, f.id), acc, depth);
            && EndsBefore(acc', s[t], i + 1)
            && acc' + ProjectFields(sub, sub[t], rest, depth) == acc + ProjectFields(sub, sub[t], m, depth)
  {
    hide ConformsEntry, Get, ProjectFields, ProjectValues, Added, Remaining, FieldById;
    var f := s[t][i];
    NextField(s, t, i, m, depth);
    SameField(s, sub, t, f);
    IdsGrow(s, t, i);
    FirstHasValues(s, t, i, m, depth);
    hide Compatible, ValidSchema;
    AddedAtEnd(sub, t, f, Get(m, f.id), acc, depth);
    if m != [] && m[0].id == f.id {
      FirstProjected(sub, t, m, depth);
    }
    assert acc + [] == acc;
  }

  lemma IdsGrow(s: Schema, t: nat, i: nat)
    requires ValidSchema(s) && t < |s|
    ensures i + 1 < |s[t]| ==> s[t][i].id < s[t][i + 1].id
  {
    if i + 1 < |s[t]| {
      assert ValidFields(s, s[t]);
    }
  }

  lemma FirstHasValues(s: Schema, t: nat, i: nat, m: seq<Entry>, depth: nat)
    requires t < |s| && i <= |s[t]| && Remaining(s, t, i, m, depth)
    ensures m != [] ==> m[0].values != []
  {
    hide ConformsEntry;
    if m != [] {
      assert m[0] in m;
      EntryField(s, t, m[0], depth);
    }
  }

  lemma FirstProjected(sub: Schema, t: nat, m: seq<Entry>, depth: nat)
    requires t < |sub| && m != []
    ensures ProjectFields(sub, sub[t], m, depth) ==
            (if FieldById(sub[t], m[0].id).Some?
             then [Entry(m[0].id, ProjectValues(sub, FieldById(sub[t], m[0].id).value.kind, m[0].values, depth))]
                 else [])
            + ProjectFields(sub, sub[t], m[1..], depth)
  {
    hide FieldById, ProjectValues;
  }

  /** Decoding the fields from index `i` on adds exactly the remaining entries, projected. */
  lemma {:induction false} FieldsDecode(s: Schema, sub: Schema, t: nat, i: nat, m: seq<Entry>, acc: seq<Entry>,
                                        depth: nat)
    requires Compatible(s, sub) && t < |s| && i <= |s[t]| && depth <= RECURSION_LIMIT
    requires Remaining(s, t, i, m, depth) && EndsBefore(acc, s[t], i)
    requires EncodeFields(s, s[t][i..], m, depth).Some? && |EncodeFields(s, s[t][i..], m, depth).value| < U32_MODULUS
    ensures t < |sub|
    ensures DecodeFields(sub, t, EncodeFields(s, s[t][i..], m, depth).value, acc, depth) ==
            Some(acc + ProjectFields(sub, sub[t], m, depth))
    decreases RECURSION_LIMIT + 1 - depth, 4, |s[t]| - i
  {
    if i == |s[t]| {
      NothingLeft(s, t, m, depth);
      NoFields(s, sub, t, acc, depth);
    } else {
      var f := s[t][i];
      NextField(s, t, i, m, depth);
      NextAdded(s, sub, t, i, m, acc, depth);
      EncodeUnfold(s, t, i, m, depth);
      NextConforms(s, t, i, m, depth);
      var rest := if m != [] && m[0].id == f.id then m[1..] else m;
      if m != [] && m[0].id == f.id {
        OtherIds(s, t, i);
        EncodesWithoutFirst(s, s[t][i + 1..], m, depth);
      }
      hide DecodeFields, EncodeField, EncodeFields, Compatible, Remaining, Get, ConformsValue, ProjectFields, Added;
      var more := EncodeFields(s, s[t][i + 1..], m, depth).value;
      FieldDecodes(s, sub, t, f, Get(m, f.id), acc, depth, more);
      FieldsDecode(s, sub, t, i + 1, rest, Added(sub, t, f, Get(m, f.id), acc, depth), depth);
    }
  }

  lemma OtherIds(s: Schema, t: nat, i: nat)
    requires ValidSchema(s) && t < |s| && i < |s[t]|
    ensures forall g | g in s[t][i + 1..] :: g.id != s[t][i].id
  {
    assert ValidFields(s, s[t]);
  }

  lemma NextConforms(s: Schema, t: nat, i: nat, m: seq<Entry>, depth: nat)
    requires ValidSchema(s) && t < |s| && i < |s[t]| && Remaining(s, t, i, m, depth)
    ensures forall v | v in Get(m, s[t][i].id) :: ConformsValue(s, s[t][i].kind, v, depth)
    ensures s[t][i].repeated || |Get(m, s[t][i].id)| <= 1
  {
    assert s[t][i] in s[t];
    ValuesConform(s, t, s[t][i], m, depth);
    hide ConformsEntry, ConformsValue, Get, ValidSchema;
  }

  lemma NothingLeft(s: Schema, t: nat, m: seq<Entry>, depth: nat)
    requires t < |s| && Remaining(s, t, |s[t]|, m, depth)
    ensures m == []
  {
    if m != [] {
      assert m[0] in m;
      EntryField(s, t, m[0], depth);
    }
  }

  lemma NoFields(s: Schema, sub: Schema, t: nat, acc: seq<Entry>, depth: nat)
    requires Compatible(s, sub) && t < |s|
    ensures t < |sub|
    ensures EncodeFields(s, s[t][|s[t]|..], [], depth) == Some([])
    ensures DecodeFields(sub, t, [], acc, depth) == Some(acc + ProjectFields(sub, sub[t], [], depth))
  {
    assert s[t][|s[t]|..] == [] && acc + [] == acc;
  }

  /**
   * Decoding with a schema that knows fewer fields gives the message without the fields it does not know, at every
   * level.
   */
  lemma MessageDecodes(s: Schema, sub: Schema, t: nat, m: seq<Entry>, depth: nat)
    requires Compatible(s, sub) && Conforms(s, t, m, depth)
    requires EncodeMessage(s, t, m, depth).Some? && |EncodeMessage(s, t, m, depth).value| < U32_MODULUS
    ensures t < |sub|
    ensures DecodeMessage(sub, t, EncodeMessage(s, t, m, depth).value, depth) ==
            Some(ProjectFields(sub, sub[t], m, depth))
    decreases RECURSION_LIMIT + 1 - depth, 5
  {
    assert s[t][0..] == s[t];
    assert Remaining(s, t, 0, m, depth);
    FieldsDecode(s, sub, t, 0, m, [], depth);
    assert [] + ProjectFields(sub, sub[t], m, depth) == ProjectFields(sub, sub[t], m, depth);
    hide DecodeFields, EncodeFields, Remaining, Conforms, Compatible, ProjectFields;
  }

  // -------------------------------------------------------------------------
  // Main results
  // -------------------------------------------------------------------------

  lemma {:induction false} ProjectsToItself(s: Schema, t: nat, m: seq<Entry>, depth: nat)
    requires t < |s| && depth <= RECURSION_LIMIT && forall e | e in m :: ConformsEntry(s, s[t], e, depth)
    ensures ProjectFields(s, s[t], m, depth) == m
    decreases RECURSION_LIMIT + 1 - depth, 2, |m|
  {
    if m != [] {
      assert m[0] in m && ConformsEntry(s, s[t], m[0], depth);
      var f := FieldById(s[t], m[0].id).value;
      ValuesToThemselves(s, f.kind, m[0].values, depth);
      ProjectsToItself(s, t, m[1..], depth);
      hide ConformsEntry, ProjectValues, FieldById;
      assert [m[0]] + m[1..] == m;
    }
  }

  lemma {:induction false} ValuesToThemselves(s: Schema, kind: Kind, values: seq<Value>, depth: nat)
    requires depth <= RECURSION_LIMIT && forall v | v in values :: ConformsValue(s, kind, v, depth)
    ensures ProjectValues(s, kind, values, depth) == values
    decreases RECURSION_LIMIT + 1 - depth, 1, |values|
  {
    if values != [] {
      ValueToItself(s, kind, values[0], depth);
      ValuesToThemselves(s, kind, values[1..], depth);
      hide ConformsValue, ProjectValue;
      assert [values[0]] + values[1..] == values;
    }
  }

  lemma ValueToItself(s: Schema, kind: Kind, v: Value, depth: nat)
    requires depth <= RECURSION_LIMIT && ConformsValue(s, kind, v, depth)
    ensures ProjectValue(s, kind, v, depth) == v
    decreases RECURSION_LIMIT + 1 - depth, 0
  {
    if kind.Message? {
      ProjectsToItself(s, kind.index, v.fields, depth + 1);
    }
    hide ConformsEntry, ProjectFields;
  }

  /**
   * Round trip: every canonical message within the recursion limit encodes, and decoding its bytes with the same
   * schema gives it back, byte for byte consumed: nested messages, packed and unpacked lists, empty messages.
   */
  lemma RoundTrip(s: Schema, t: nat, m: seq<Entry>)
    requires ValidSchema(s) && Conforms(s, t, m, 0)
    ensures EncodeMessage(s, t, m, 0).Some?
    ensures |EncodeMessage(s, t, m, 0).value| < U32_MODULUS
            ==> DecodeMessage(s, t, EncodeMessage(s, t, m, 0).value, 0) == Some(m)
  {
    MessageEncodes(s, t, m, 0);
    if |EncodeMessage(s, t, m, 0).value| < U32_MODULUS {
      MessageDecodes(s, s, t, m, 0);
      ProjectsToItself(s, t, m, 0);
    }
    hide EncodeMessage, DecodeMessage, ProjectFields;
  }

  /** Canonical encoding is injective: messages of a type with the same bytes are the same message. */
  lemma EncodingInjective(s: Schema, t: nat, a: seq<Entry>, b: seq<Entry>)
    requires ValidSchema(s) && Conforms(s, t, a, 0) && Conforms(s, t, b, 0)
    requires EncodeMessage(s, t, a, 0) == EncodeMessage(s, t, b, 0)
    requires EncodeMessage(s, t, a, 0).Some? ==> |EncodeMessage(s, t, a, 0).value| < U32_MODULUS
    ensures a == b
  {
    hide EncodeMessage, DecodeMessage, Conforms, ValidSchema;
    RoundTrip(s, t, a);
    RoundTrip(s, t, b);
  }

  /** Unknown fields are skipped: a reader with fewer fields gets the writer's message without them. */
  lemma SubSchemaReadsProjection(s: Schema, sub: Schema, t: nat, m: seq<Entry>)
    requires ValidSchema(s) && ValidSchema(sub) && SubSchema(sub, s) && Conforms(s, t, m, 0)
    requires EncodeMessage(s, t, m, 0).Some? ==> |EncodeMessage(s, t, m, 0).value| < U32_MODULUS
    ensures t < |sub| && EncodeMessage(s, t, m, 0).Some?
    ensures DecodeMessage(sub, t, EncodeMessage(s, t, m, 0).value, 0) == Some(ProjectFields(sub, sub[t], m, 0))
  {
    MessageEncodes(s, t, m, 0);
    MessageDecodes(s, sub, t, m, 0);
    hide EncodeMessage, DecodeMessage, ProjectFields;
  }
}
