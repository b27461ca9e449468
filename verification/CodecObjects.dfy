/**
 * Objects as the SDK hands them out (`decode` in `packages/sdk/src/encoding.ts`): after decoding, every scalar
 * field is filled in with its default and every list is present. Such an object encodes to the bytes it came
 * from, so encoding and decoding settle after one round.
 */
module CodecObjects {
  import opened Wrappers
  import opened Bytes
  import opened Codec
  import opened CodecRoundTrip
  import opened CodecCanonical

  function DefaultOf(kind: Kind): Value
    requires !kind.Message?
  {
    if kind.Blob? then Text([]) else Num(0)
  }

  /** A value with the defaults of nested messages filled in. */
  function FillValue(s: Schema, kind: Kind, v: Value, depth: nat): Value
    decreases RECURSION_LIMIT + 1 - depth, 0
  {
    if kind.Message? && v.Msg? && depth <= RECURSION_LIMIT then Msg(Fill(s, kind.index, v.fields, depth + 1)) else v
  }

  function FillValues(s: Schema, kind: Kind, values: seq<Value>, depth: nat): (filled: seq<Value>)
    ensures |filled| == |values|
    decreases RECURSION_LIMIT + 1 - depth, 1, |values|
  {
    if values == [] then []
    else [FillValue(s, kind, values[0], depth)] + FillValues(s, kind, values[1..], depth)
  }

  /** Lists are present even when empty, scalars with their default; a missing message stays missing. */
  function FilledField(s: Schema, f: Field, values: seq<Value>, depth: nat): seq<Entry>
    decreases RECURSION_LIMIT + 1 - depth, 2
  {
    if f.repeated then [Entry(f.id, FillValues(s, f.kind, values, depth))]
    else if values != [] then [Entry(f.id, FillValues(s, f.kind, values, depth))]
    else if f.kind.Message? then []
    else [Entry(f.id, [DefaultOf(f.kind)])]
  }

  function FillFields(s: Schema, fields: seq<Field>, m: seq<Entry>, depth: nat): seq<Entry>
    decreases RECURSION_LIMIT + 1 - depth, 3, |fields|
  {
    if fields == [] then []
    else FilledField(s, fields[0], Get(m, fields[0].id), depth) + FillFields(s, fields[1..], m, depth)
  }

  function Fill(s: Schema, t: nat, m: seq<Entry>, depth: nat): seq<Entry>
    decreases RECURSION_LIMIT + 1 - depth, 4
  {
    if depth > RECURSION_LIMIT || t >= |s| then m else FillFields(s, s[t], m, depth)
  }

  /** `decode`: decode, then fill in what is missing. */
  function Decode(s: Schema, t: nat, bytes: Bytes): Option<seq<Entry>> {
    var m := DecodeMessage(s, t, bytes, 0);
    if m.None? then None else Some(Fill(s, t, m.value, 0))
  }

  // -------------------------------------------------------------------------
  // Filling in changes no canonical form
  // -------------------------------------------------------------------------

  lemma {:induction false} FilledIds(s: Schema, fields: seq<Field>, m: seq<Entry>, depth: nat)
    ensures forall e | e in FillFields(s, fields, m, depth) :: exists f :: f in fields && f.id == e.id
    decreases |fields|
  {
    if fields != [] {
      FilledIds(s, fields[1..], m, depth);
      hide Get, FillValues;
      forall e | e in FillFields(s, fields, m, depth)
        ensures exists f :: f in fields && f.id == e.id
      {
        if e in FillFields(s, fields[1..], m, depth) {
          var f :| f in fields[1..] && f.id == e.id;
          assert f in fields;
        } else {
          assert e in FilledField(s, fields[0], Get(m, fields[0].id), depth);
          assert fields[0] in fields && fields[0].id == e.id;
        }
      }
    }
  }

  lemma {:induction false} GetConcat(a: seq<Entry>, b: seq<Entry>, id: nat)
    ensures Get(a + b, id) == if exists e :: e in a && e.id == id then Get(a, id) else Get(b, id)
  {
    if a == [] {
      assert a + b == b;
    } else {
      GetConcat(a[1..], b, id);
      assert (a + b)[1..] == a[1..] + b;
      assert forall e :: e in a <==> e == a[0] || e in a[1..];
    }
  }

  /** The values of a field after filling in. */
  function FilledValues(s: Schema, f: Field, values: seq<Value>, depth: nat): seq<Value> {
    if values == [] && !f.repeated && !f.kind.Message? then [DefaultOf(f.kind)]
    else FillValues(s, f.kind, values, depth)
  }

  lemma {:induction false} GetFilled(s: Schema, fields: seq<Field>, i: nat, m: seq<Entry>, depth: nat)
    requires i < |fields| && forall j, k | 0 <= j < k < |fields| :: fields[j].id < fields[k].id
    ensures Get(FillFields(s, fields, m, depth), fields[i].id) ==
            FilledValues(s, fields[i], Get(m, fields[i].id), depth)
    decreases |fields|
  {
    hide FillValues;
    var first, rest := FilledField(s, fields[0], Get(m, fields[0].id), depth), FillFields(s, fields[1..], m, depth);
    GetConcat(first, rest, fields[i].id);
    if i == 0 {
      FirstFilled(s, fields[0], Get(m, fields[0].id), depth);
      FilledIds(s, fields[1..], m, depth);
      OtherIds(rest, fields[1..], fields[0].id);
    } else {
      GetFilled(s, fields[1..], i - 1, m, depth);
    }
  }

  lemma FirstFilled(s: Schema, f: Field, values: seq<Value>, depth: nat)
    ensures var first := FilledField(s, f, values, depth);
            (first == [] && FilledValues(s, f, values, depth) == [])
            || (|first| == 1 && first[0].id == f.id && Get(first, f.id) == FilledValues(s, f, values, depth))
  {
  }

  lemma {:induction false} OtherIds(m: seq<Entry>, fields: seq<Field>, id: nat)
    requires forall e | e in m :: exists f :: f in fields && f.id == e.id
    requires forall f | f in fields :: f.id != id
    ensures Get(m, id) == []
  {
    if m != [] {
      assert m[0] in m;
      OtherIds(m[1..], fields, id);
    }
  }

  lemma ValueFilled(s: Schema, kind: Kind, v: Value, depth: nat)
    requires ValidSchema(s)
    ensures NormalizeValue(s, kind, FillValue(s, kind, v, depth), depth) == NormalizeValue(s, kind, v, depth)
    decreases RECURSION_LIMIT + 1 - depth, 0
  {
    if kind.Message? && v.Msg? && depth <= RECURSION_LIMIT {
      FilledCanonical(s, kind.index, v.fields, depth + 1);
    }
    hide Canonicalize, Fill, ValidSchema;
  }

  lemma {:induction false} ValuesFilled(s: Schema, kind: Kind, values: seq<Value>, depth: nat)
    requires ValidSchema(s)
    ensures NormalizeValues(s, kind, FillValues(s, kind, values, depth), depth) ==
            NormalizeValues(s, kind, values, depth)
    decreases RECURSION_LIMIT + 1 - depth, 1, |values|
  {
    hide NormalizeValue, FillValue;
    if values != [] {
      ValueFilled(s, kind, values[0], depth);
      ValuesFilled(s, kind, values[1..], depth);
      var filled := FillValues(s, kind, values, depth);
      assert filled[0] == FillValue(s, kind, values[0], depth)
             && filled[1..] == FillValues(s, kind, values[1..], depth);
    }
  }

  lemma DefaultIsDropped(s: Schema, kind: Kind, depth: nat)
    requires !kind.Message?
    ensures NormalizeValues(s, kind, [DefaultOf(kind)], depth) == Some([DefaultOf(kind)]) && IsDefault(DefaultOf(kind))
  {
    assert [DefaultOf(kind)][1..] == [] && [DefaultOf(kind)] + [] == [DefaultOf(kind)];
    assert NormalizeValues(s, kind, [], depth) == Some([]);
    assert NormalizeValue(s, kind, DefaultOf(kind), depth) == Some(DefaultOf(kind));
  }

  lemma FieldFilled(s: Schema, f: Field, values: seq<Value>, depth: nat)
    requires ValidSchema(s)
    ensures CanonicalValues(s, f, FilledValues(s, f, values, depth), depth) == CanonicalValues(s, f, values, depth)
    decreases RECURSION_LIMIT + 1 - depth, 2
  {
    if values == [] && !f.repeated && !f.kind.Message? {
      DefaultIsDropped(s, f.kind, depth);
      assert NormalizeValues(s, f.kind, values, depth) == Some([]);
      var filled := [DefaultOf(f.kind)];
      assert FilledValues(s, f, values, depth) == filled;
      assert CanonicalValues(s, f, filled, depth) == Some([]);
    } else {
      ValuesFilled(s, f.kind, values, depth);
      var filled := FillValues(s, f.kind, values, depth);
      assert |filled| == |values| && FilledValues(s, f, values, depth) == filled;
      assert CanonicalValues(s, f, filled, depth) == CanonicalValues(s, f, values, depth);
    }
  }

  lemma {:induction false} FieldsFilled(s: Schema, t: nat, i: nat, m: seq<Entry>, depth: nat)
    requires ValidSchema(s) && t < |s| && i <= |s[t]|
    ensures CanonicalFields(s, s[t][i..], FillFields(s, s[t], m, depth), depth) ==
            CanonicalFields(s, s[t][i..], m, depth)
    decreases RECURSION_LIMIT + 1 - depth, 3, |s[t]| - i
  {
    if i < |s[t]| {
      var f := s[t][i];
      assert s[t][i..][0] == f && s[t][i..][1..] == s[t][i + 1..];
      assert ValidFields(s, s[t]);
      hide CanonicalValues, Get, FillFields, FilledValues, ValidSchema;
      FieldsFilled(s, t, i + 1, m, depth);
      GetFilled(s, s[t], i, m, depth);
      FieldFilled(s, f, Get(m, f.id), depth);
    }
  }

  /** Filling in defaults and empty lists changes no canonical form. */
  lemma FilledCanonical(s: Schema, t: nat, m: seq<Entry>, depth: nat)
    requires ValidSchema(s)
    ensures Canonicalize(s, t, Fill(s, t, m, depth), depth) == Canonicalize(s, t, m, depth)
    decreases RECURSION_LIMIT + 1 - depth, 4
  {
    if depth <= RECURSION_LIMIT && t < |s| {
      FieldsFilled(s, t, 0, m, depth);
      assert s[t][0..] == s[t];
    }
    hide CanonicalFields, FillFields, ValidSchema;
  }

  // -------------------------------------------------------------------------
  // Canonical forms are their own canonical forms
  // -------------------------------------------------------------------------

  lemma ValueSettles(s: Schema, kind: Kind, raw: Value, depth: nat)
    requires ValidSchema(s) && NormalizeValue(s, kind, raw, depth).Some?
    ensures var v := NormalizeValue(s, kind, raw, depth).value; NormalizeValue(s, kind, v, depth) == Some(v)
    decreases RECURSION_LIMIT + 1 - depth, 0
  {
    if kind.Message? {
      CanonicalSettles(s, kind.index, raw.fields, depth + 1);
    }
    hide Canonicalize, ValidSchema;
  }

  lemma {:induction false} ValuesSettle(s: Schema, kind: Kind, raws: seq<Value>, depth: nat)
    requires ValidSchema(s) && NormalizeValues(s, kind, raws, depth).Some?
    ensures var values := NormalizeValues(s, kind, raws, depth).value;
            |values| == |raws| && NormalizeValues(s, kind, values, depth) == Some(values)
    decreases RECURSION_LIMIT + 1 - depth, 1, |raws|
  {
    hide NormalizeValue;
    if raws != [] {
      ValueSettles(s, kind, raws[0], depth);
      ValuesSettle(s, kind, raws[1..], depth);
      var values := NormalizeValues(s, kind, raws, depth).value;
      assert values[1..] == NormalizeValues(s, kind, raws[1..], depth).value;
    }
  }

  lemma FieldSettles(s: Schema, f: Field, raws: seq<Value>, depth: nat)
    requires ValidSchema(s) && CanonicalValues(s, f, raws, depth).Some?
    ensures var values := CanonicalValues(s, f, raws, depth).value; CanonicalValues(s, f, values, depth) == Some(values)
    decreases RECURSION_LIMIT + 1 - depth, 2
  {
    ValuesSettle(s, f.kind, raws, depth);
    assert NormalizeValues(s, f.kind, [], depth) == Some([]);
    hide NormalizeValues, IsDefault;
  }

  /** A canonical form holds the canonical values of each field. */
  lemma {:induction false} GetCanonical(s: Schema, fields: seq<Field>, i: nat, input: seq<Entry>, depth: nat)
    requires i < |fields| && forall j, k | 0 <= j < k < |fields| :: fields[j].id < fields[k].id
    requires CanonicalFields(s, fields, input, depth).Some?
    ensures var f := fields[i];
            Some(Get(CanonicalFields(s, fields, input, depth).value, f.id)) ==
            CanonicalValues(s, f, Get(input, f.id), depth)
    decreases |fields|
  {
    hide CanonicalValues;
    var values := CanonicalValues(s, fields[0], Get(input, fields[0].id), depth).value;
    var first := if values == [] then [] else [Entry(fields[0].id, values)];
    var rest := CanonicalFields(s, fields[1..], input, depth).value;
    GetConcat(first, rest, fields[i].id);
    if i == 0 {
      CanonicalIds(s, fields[1..], input, depth);
      OtherIds(rest, fields[1..], fields[0].id);
    } else {
      GetCanonical(s, fields[1..], i - 1, input, depth);
    }
  }

  lemma {:induction false} CanonicalIds(s: Schema, fields: seq<Field>, input: seq<Entry>, depth: nat)
    requires CanonicalFields(s, fields, input, depth).Some?
    ensures forall e | e in CanonicalFields(s, fields, input, depth).value :: exists f :: f in fields && f.id == e.id
    decreases |fields|
  {
    if fields != [] {
      CanonicalIds(s, fields[1..], input, depth);
      hide Get, CanonicalValues;
      var rest := CanonicalFields(s, fields[1..], input, depth).value;
      forall e | e in CanonicalFields(s, fields, input, depth).value
        ensures exists f :: f in fields && f.id == e.id
      {
        if e in rest {
          var f :| f in fields[1..] && f.id == e.id;
          assert f in fields;
        } else {
          assert fields[0] in fields && fields[0].id == e.id;
        }
      }
    }
  }

  lemma {:induction false} FieldsSettle(s: Schema, t: nat, i: nat, input: seq<Entry>, depth: nat)
    requires ValidSchema(s) && t < |s| && i <= |s[t]| && CanonicalFields(s, s[t], input, depth).Some?
    requires CanonicalFields(s, s[t][i..], input, depth).Some?
    ensures CanonicalFields(s, s[t][i..], CanonicalFields(s, s[t], input, depth).value, depth) ==
            CanonicalFields(s, s[t][i..], input, depth)
    decreases RECURSION_LIMIT + 1 - depth, 3, |s[t]| - i
  {
    if i < |s[t]| {
      var f := s[t][i];
      assert s[t][i..][0] == f && s[t][i..][1..] == s[t][i + 1..];
      assert ValidFields(s, s[t]);
      GetCanonical(s, s[t], i, input, depth);
      hide CanonicalValues, Get, ValidSchema;
      FieldsSettle(s, t, i + 1, input, depth);
      FieldSettles(s, f, Get(input, f.id), depth);
    }
  }

  /** Canonicalising twice changes nothing. */
  lemma CanonicalSettles(s: Schema, t: nat, input: seq<Entry>, depth: nat)
    requires ValidSchema(s) && Canonicalize(s, t, input, depth).Some?
    ensures Canonicalize(s, t, Canonicalize(s, t, input, depth).value, depth) == Canonicalize(s, t, input, depth)
    decreases RECURSION_LIMIT + 1 - depth, 4
  {
    assert s[t][0..] == s[t];
    FieldsSettle(s, t, 0, input, depth);
    hide CanonicalFields, ValidSchema;
  }

  // -------------------------------------------------------------------------
  // The round trip of objects
  // -------------------------------------------------------------------------

  /**
   * Every accepted object encodes, its bytes decode to an object with the same canonical form, and that object encodes
   * to the same bytes again.
   */
  lemma ObjectRoundTrip(s: Schema, t: nat, input: seq<Entry>)
    requires ValidSchema(s) && Canonicalize(s, t, input, 0).Some?
    ensures Encode(s, t, input).Some?
    ensures |Encode(s, t, input).value| < U32_MODULUS ==>
              var decoded := Decode(s, t, Encode(s, t, input).value);
              && decoded.Some?
              && Canonicalize(s, t, decoded.value, 0) == Canonicalize(s, t, input, 0)
              && Encode(s, t, decoded.value) == Encode(s, t, input)
  {
    EncodeDecodes(s, t, input);
    CanonicalSettles(s, t, input, 0);
    FilledCanonical(s, t, Canonicalize(s, t, input, 0).value, 0);
    hide Canonicalize, Fill, DecodeMessage, EncodeMessage, ValidSchema;
  }

  /** In a decoded object each scalar field has the encoded value, or its default when the object encoded had none. */
  lemma ScalarsArePresent(s: Schema, t: nat, input: seq<Entry>, i: nat)
    requires ValidSchema(s) && Canonicalize(s, t, input, 0).Some?
    requires Encode(s, t, input).Some? && |Encode(s, t, input).value| < U32_MODULUS
    requires i < |s[t]| && !s[t][i].repeated && !s[t][i].kind.Message?
    ensures var decoded, f := Decode(s, t, Encode(s, t, input).value), s[t][i];
            && decoded.Some?
            && var was := CanonicalValues(s, f, Get(input, f.id), 0);
               was.Some? && Get(decoded.value, f.id) == if was.value == [] then [DefaultOf(f.kind)] else was.value
  {
    var m := Canonicalize(s, t, input, 0).value;
    EncodeDecodes(s, t, input);
    assert ValidFields(s, s[t]);
    hide CanonicalValues, Get, DecodeMessage, EncodeMessage, ValidSchema, FillFields, FilledValues, CanonicalFields;
    GetFilled(s, s[t], i, m, 0);
    GetCanonical(s, s[t], i, input, 0);
    ScalarFilled(s, s[t][i], Get(input, s[t][i].id));
  }

  lemma ScalarFilled(s: Schema, f: Field, raws: seq<Value>)
    requires !f.repeated && !f.kind.Message? && CanonicalValues(s, f, raws, 0).Some?
    ensures var values := CanonicalValues(s, f, raws, 0).value;
            FilledValues(s, f, values, 0) == if values == [] then [DefaultOf(f.kind)] else values
  {
    var values := CanonicalValues(s, f, raws, 0).value;
    assert |values| <= 1 by {
      if raws != [] {
        assert |raws| == 1 && raws[1..] == [];
        assert NormalizeValues(s, f.kind, [], 0) == Some([]);
      }
    }
    if values != [] {
      assert values == [values[0]] && values[1..] == [];
      assert FillValues(s, f.kind, [], 0) == [];
      assert FillValue(s, f.kind, values[0], 0) == values[0];
    }
  }
}
