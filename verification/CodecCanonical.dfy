/**
 * Canonicalisation before encoding (`packages/sdk/src/encoding.ts`): default scalars and empty lists are
 * dropped, values out of range are rejected, unknown keys are ignored. Two objects have the same bytes
 * exactly when they have the same canonical form.
 */
module CodecCanonical {
  import opened Wrappers
  import opened Bytes
  import opened Codec
  import opened CodecRoundTrip

  /** The value proto3 does not write for a single field; messages are always written. */
  predicate IsDefault(v: Value) {
    match v
    case Num(n) => n == 0
    case Text(bytes) => bytes == []
    case Msg(_) => false
  }

  /** A normalised value; None when it is of another type or out of range. */
  function NormalizeValue(s: Schema, kind: Kind, raw: Value, depth: nat): Option<Value>
    decreases RECURSION_LIMIT + 1 - depth, 0
  {
    match kind
    case Message(k) =>
      if !raw.Msg? || depth > RECURSION_LIMIT then None
      else
        var inner := Canonicalize(s, k, raw.fields, depth + 1);
        if inner.None? then None else Some(Msg(inner.value))
    case Blob => if raw.Text? then Some(raw) else None
    case _ => if raw.Num? && InRange(kind, raw.n) then Some(raw) else None
  }

  function NormalizeValues(s: Schema, kind: Kind, raws: seq<Value>, depth: nat): Option<seq<Value>>
    decreases RECURSION_LIMIT + 1 - depth, 1, |raws|
  {
    if raws == [] then Some([])
    else
      var first, rest := NormalizeValue(s, kind, raws[0], depth), NormalizeValues(s, kind, raws[1..], depth);
      if first.None? || rest.None? then None else Some([first.value] + rest.value)
  }

  /** The canonical values of a field; none when it is missing, an empty list, or a single default. */
  function CanonicalValues(s: Schema, f: Field, raws: seq<Value>, depth: nat): Option<seq<Value>>
    decreases RECURSION_LIMIT + 1 - depth, 2
  {
    if !f.repeated && |raws| > 1 then None
    else
      var values := NormalizeValues(s, f.kind, raws, depth);
      if values.None? then None
      else if !f.repeated && values.value != [] && IsDefault(values.value[0]) then Some([])
      else values
  }

  function CanonicalFields(s: Schema, fields: seq<Field>, input: seq<Entry>, depth: nat): Option<seq<Entry>>
    decreases RECURSION_LIMIT + 1 - depth, 3, |fields|
  {
    if fields == [] then Some([])
    else
      var values := CanonicalValues(s, fields[0], Get(input, fields[0].id), depth);
      var rest := CanonicalFields(s, fields[1..], input, depth);
      if values.None? || rest.None? then None
      else Some((if values.value == [] then [] else [Entry(fields[0].id, values.value)]) + rest.value)
  }

  /** The canonical message of an input; None when it is rejected, here or by the encoder for its depth. */
  function Canonicalize(s: Schema, t: nat, input: seq<Entry>, depth: nat): Option<seq<Entry>>
    decreases RECURSION_LIMIT + 1 - depth, 4
  {
    if depth > RECURSION_LIMIT || t >= |s| then None else CanonicalFields(s, s[t], input, depth)
  }

  /** `encode`: canonicalise, then encode. */
  function Encode(s: Schema, t: nat, input: seq<Entry>): Option<Bytes> {
    var m := Canonicalize(s, t, input, 0);
    if m.None? then None else EncodeMessage(s, t, m.value, 0)
  }

  // -------------------------------------------------------------------------
  // Canonical forms are canonical messages
  // -------------------------------------------------------------------------

  lemma ValueConforms(s: Schema, kind: Kind, raw: Value, depth: nat)
    requires ValidSchema(s) && depth <= RECURSION_LIMIT && NormalizeValue(s, kind, raw, depth).Some?
    ensures ConformsValue(s, kind, NormalizeValue(s, kind, raw, depth).value, depth)
    decreases RECURSION_LIMIT + 1 - depth, 0
  {
    if kind.Message? {
      CanonicalConforms(s, kind.index, raw.fields, depth + 1);
    }
    hide Conforms, Canonicalize, InRange;
  }

  lemma {:induction false} ValuesConforms(s: Schema, kind: Kind, raws: seq<Value>, depth: nat)
    requires ValidSchema(s) && depth <= RECURSION_LIMIT && NormalizeValues(s, kind, raws, depth).Some?
    ensures |NormalizeValues(s, kind, raws, depth).value| == |raws|
    ensures forall v | v in NormalizeValues(s, kind, raws, depth).value :: ConformsValue(s, kind, v, depth)
    decreases RECURSION_LIMIT + 1 - depth, 1, |raws|
  {
    if raws != [] {
      ValueConforms(s, kind, raws[0], depth);
      ValuesConforms(s, kind, raws[1..], depth);
      hide ConformsValue, NormalizeValue;
    }
  }

  /** The entry of one field. */
  lemma EntryConforms(s: Schema, t: nat, f: Field, raws: seq<Value>, depth: nat)
    requires ValidSchema(s) && t < |s| && f in s[t] && depth <= RECURSION_LIMIT
    requires CanonicalValues(s, f, raws, depth).Some? && CanonicalValues(s, f, raws, depth).value != []
    ensures ConformsEntry(s, s[t], Entry(f.id, CanonicalValues(s, f, raws, depth).value), depth)
    decreases RECURSION_LIMIT + 1 - depth, 2
  {
    FieldFound(s[t], f);
    ValuesConforms(s, f.kind, raws, depth);
    hide NormalizeValues, ConformsValue, ValidSchema;
  }

  lemma {:induction false} FieldsConform(s: Schema, t: nat, i: nat, input: seq<Entry>, depth: nat)
    requires ValidSchema(s) && t < |s| && i <= |s[t]| && depth <= RECURSION_LIMIT
    requires CanonicalFields(s, s[t][i..], input, depth).Some?
    ensures var m := CanonicalFields(s, s[t][i..], input, depth).value;
            && (forall e | e in m :: ConformsEntry(s, s[t], e, depth))
            && (forall j, k | 0 <= j < k < |m| :: m[j].id < m[k].id)
            && (forall e | e in m :: i < |s[t]| && s[t][i].id <= e.id)
    decreases RECURSION_LIMIT + 1 - depth, 3, |s[t]| - i
  {
    if i < |s[t]| {
      var f := s[t][i];
      assert s[t][i..][0] == f && s[t][i..][1..] == s[t][i + 1..];
      FieldsConform(s, t, i + 1, input, depth);
      assert ValidFields(s, s[t]);
      var values := CanonicalValues(s, f, Get(input, f.id), depth);
      if values.value != [] {
        EntryConforms(s, t, f, Get(input, f.id), depth);
      }
      hide ConformsEntry, CanonicalValues, Get, ValidSchema;
    }
  }

  /** Whatever input is accepted, its canonical form is a canonical message of the type, within the recursion limit. */
  lemma CanonicalConforms(s: Schema, t: nat, input: seq<Entry>, depth: nat)
    requires ValidSchema(s) && Canonicalize(s, t, input, depth).Some?
    ensures Conforms(s, t, Canonicalize(s, t, input, depth).value, depth)
    decreases RECURSION_LIMIT + 1 - depth, 4
  {
    FieldsConform(s, t, 0, input, depth);
    assert s[t][0..] == s[t];
    hide ConformsEntry, CanonicalFields;
  }

  // -------------------------------------------------------------------------
  // Canonical encoding
  // -------------------------------------------------------------------------

  /** Every accepted input encodes, and its bytes decode to its canonical form. */
  lemma EncodeDecodes(s: Schema, t: nat, input: seq<Entry>)
    requires ValidSchema(s) && Canonicalize(s, t, input, 0).Some?
    ensures Encode(s, t, input).Some?
    ensures |Encode(s, t, input).value| < U32_MODULUS ==>
              DecodeMessage(s, t, Encode(s, t, input).value, 0) == Canonicalize(s, t, input, 0)
  {
    CanonicalConforms(s, t, input, 0);
    RoundTrip(s, t, Canonicalize(s, t, input, 0).value);
    hide Canonicalize, EncodeMessage, DecodeMessage, Conforms;
  }

  /**
   * Two accepted objects have the same bytes exactly when they have the same canonical form: defaults and unknown keys
   * aside, they are the same.
   */
  lemma SameBytesSameCanonicalForm(s: Schema, t: nat, a: seq<Entry>, b: seq<Entry>)
    requires ValidSchema(s) && Canonicalize(s, t, a, 0).Some? && Canonicalize(s, t, b, 0).Some?
    requires Encode(s, t, a).Some? ==> |Encode(s, t, a).value| < U32_MODULUS
    ensures Encode(s, t, a) == Encode(s, t, b) <==> Canonicalize(s, t, a, 0) == Canonicalize(s, t, b, 0)
  {
    CanonicalConforms(s, t, a, 0);
    CanonicalConforms(s, t, b, 0);
    if Encode(s, t, a) == Encode(s, t, b) {
      EncodeDecodes(s, t, a);
      EncodingInjective(s, t, Canonicalize(s, t, a, 0).value, Canonicalize(s, t, b, 0).value);
    }
    hide Canonicalize, EncodeMessage, Conforms;
  }
}
