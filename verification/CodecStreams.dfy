/**
 * The codec as it runs: the encoder advances a writer with forks, the decoder moves a reader with a
 * bounded end. Both are proved against the functions of `Codec`.
 */
module CodecStreams {
  import opened Wrappers
  import opened Bytes
  import opened Codec

  // -------------------------------------------------------------------------
  // Writer
  // -------------------------------------------------------------------------

  class Writer {
    var out: Bytes
    /** What was written before each open fork. */
    var forks: seq<Bytes>

    constructor ()
      ensures out == [] && forks == []
    {
      out, forks := [], [];
    }

    method WriteVarint(n: nat)
      modifies this`out
      ensures out == old(out) + Varint(n)
    {
      var rest := n;
      while rest >= 128
        invariant out + Varint(rest) == old(out) + Varint(n)
      {
        assert out + Varint(rest) == out + [(rest % 128 + 128) as byte] + Varint(rest / 128);
        out := out + [(rest % 128 + 128) as byte];
        rest := rest / 128;
      }
      out := out + [rest as byte];
    }

    /** A length and the bytes. */
    method WriteBytes(bytes: Bytes)
      modifies this`out
      ensures out == old(out) + Delimited(bytes)
    {
      WriteVarint(|bytes|);
      out := out + bytes;
      assert old(out) + Varint(|bytes|) + bytes == old(out) + (Varint(|bytes|) + bytes);
    }

    method Fork()
      modifies this
      ensures out == [] && forks == old(forks) + [old(out)]
    {
      forks := forks + [out];
      out := [];
    }

    /** Closes the last fork: its bytes behind their length. */
    method Ldelim()
      requires forks != []
      modifies this
      ensures out == old(forks[|forks| - 1]) + Delimited(old(out)) && forks == old(forks[..|forks| - 1])
    {
      var inner := out;
      out := forks[|forks| - 1];
      forks := forks[..|forks| - 1];
      WriteBytes(inner);
    }
  }

  /** What a part of the encoder promises: the given bytes appended and the forks as they were, or a throw. */
  ghost predicate Wrote(before: Bytes, forksBefore: seq<Bytes>, out: Bytes, forks: seq<Bytes>, ok: bool,
                        bytes: Option<Bytes>) {
    ok == bytes.Some? && (ok ==> out == before + bytes.value && forks == forksBefore)
  }

  method WriteItem(w: Writer, s: Schema, f: Field, v: Value, depth: nat) returns (ok: bool)
    modifies w
    ensures Wrote(old(w.out), old(w.forks), w.out, w.forks, ok, EncodeItem(s, f, v, depth))
    decreases RECURSION_LIMIT + 1 - depth, 1
  {
    hide Delimited, Tag, EncodeMessage, Varint;
    match f.kind
    case Message(k) =>
      if !v.Msg? || depth > RECURSION_LIMIT {
        return false;
      }
      w.WriteVarint(f.id * 8 + 2);
      TagIsVarint(f.id, 2);
      w.Fork();
      ghost var before := w.forks;
      ok := WriteMessage(w, s, k, v.fields, depth + 1);
      if ok {
        assert w.out == EncodeMessage(s, k, v.fields, depth + 1).value;
        w.Ldelim();
        assert before[..|before| - 1] == old(w.forks);
        Appended(old(w.out), Tag(f.id, 2), Delimited(EncodeMessage(s, k, v.fields, depth + 1).value));
      }
    case Blob =>
      if !v.Text? {
        return false;
      }
      w.WriteVarint(f.id * 8 + 2);
      TagIsVarint(f.id, 2);
      w.WriteBytes(v.bytes);
      Appended(old(w.out), Tag(f.id, 2), Delimited(v.bytes));
      return true;
    case _ =>
      if !v.Num? {
        return false;
      }
      w.WriteVarint(f.id * 8);
      TagIsVarint(f.id, 0);
      w.WriteVarint(v.n);
      Appended(old(w.out), Tag(f.id, 0), Varint(v.n));
      return true;
  }

  lemma Appended(a: Bytes, b: Bytes, c: Bytes)
    ensures a + b + c == a + (b + c)
  {
  }

  lemma TagIsVarint(id: nat, wire: nat)
    ensures Tag(id, wire) == Varint(id * 8 + wire)
  {
  }

  /** A loop has written a prefix of `full`, and `rest` is left to write; None stands for a throw still to come. */
  ghost predicate Progress(full: Option<Bytes>, rest: Option<Bytes>, start: Bytes, now: Bytes) {
    full.Some? == rest.Some? && (rest.Some? ==> now + rest.value == start + full.value)
  }

  lemma ProgressStep(full: Option<Bytes>, first: Bytes, rest: Option<Bytes>, start: Bytes, now: Bytes)
    requires Progress(full, if rest.None? then None else Some(first + rest.value), start, now)
    ensures Progress(full, rest, start, now + first)
  {
    if rest.Some? {
      assert now + (first + rest.value) == (now + first) + rest.value;
    }
  }

  lemma ProgressDone(full: Option<Bytes>, start: Bytes, now: Bytes)
    requires Progress(full, Some([]), start, now)
    ensures full.Some? && now == start + full.value
  {
    assert now + [] == now;
  }

  lemma ItemsUnfold(s: Schema, f: Field, values: seq<Value>, i: nat, depth: nat)
    requires i < |values|
    ensures var first, rest := EncodeItem(s, f, values[i], depth), EncodeItems(s, f, values[i + 1..], depth);
            EncodeItems(s, f, values[i..], depth) ==
            if first.None? || rest.None? then None else Some(first.value + rest.value)
    ensures EncodeItems(s, f, values[|values|..], depth) == Some([])
  {
    assert values[i..][0] == values[i] && values[i..][1..] == values[i + 1..];
  }

  method WriteItems(w: Writer, s: Schema, f: Field, values: seq<Value>, depth: nat) returns (ok: bool)
    modifies w
    ensures Wrote(old(w.out), old(w.forks), w.out, w.forks, ok, EncodeItems(s, f, values, depth))
    decreases RECURSION_LIMIT + 1 - depth, 2
  {
    hide EncodeItem, EncodeItems, Progress;
    ghost var full, start := EncodeItems(s, f, values, depth), w.out;
    assert values[0..] == values;
    ProgressStart(full, start);
    for i := 0 to |values|
      invariant w.forks == old(w.forks)
      invariant Progress(full, EncodeItems(s, f, values[i..], depth), start, w.out)
    {
      ItemsUnfold(s, f, values, i, depth);
      ghost var now := w.out;
      ok := WriteItem(w, s, f, values[i], depth);
      if !ok {
        ProgressFails(full, start, now);
        return;
      }
      ProgressStep(full, EncodeItem(s, f, values[i], depth).value, EncodeItems(s, f, values[i + 1..], depth), start,
                   now);
    }
    NoItemsLeft(s, f, values, depth);
    ProgressDone(full, start, w.out);
    return true;
  }

  lemma NoItemsLeft(s: Schema, f: Field, values: seq<Value>, depth: nat)
    ensures EncodeItems(s, f, values[|values|..], depth) == Some([])
  {
  }

  lemma ProgressStart(full: Option<Bytes>, start: Bytes)
    ensures Progress(full, full, start, start)
  {
  }

  lemma ProgressFails(full: Option<Bytes>, start: Bytes, now: Bytes)
    requires Progress(full, None, start, now)
    ensures full.None?
  {
  }

  lemma PackedUnfold(values: seq<Value>, i: nat)
    requires i < |values|
    ensures var rest := Packed(values[i + 1..]);
            Packed(values[i..]) == if !values[i].Num? || rest.None? then None
                else Some(Varint(values[i].n) + rest.value)
  {
    assert values[i..][0] == values[i] && values[i..][1..] == values[i + 1..];
  }

  method WritePacked(w: Writer, values: seq<Value>) returns (ok: bool)
    modifies w
    ensures Wrote(old(w.out), old(w.forks), w.out, w.forks, ok, Packed(values))
  {
    hide Packed, Progress, Varint;
    ghost var full, start := Packed(values), w.out;
    assert values[0..] == values;
    ProgressStart(full, start);
    for i := 0 to |values|
      invariant w.forks == old(w.forks)
      invariant Progress(full, Packed(values[i..]), start, w.out)
    {
      PackedUnfold(values, i);
      if !values[i].Num? {
        ProgressFails(full, start, w.out);
        return false;
      }
      ProgressStep(full, Varint(values[i].n), Packed(values[i + 1..]), start, w.out);
      w.WriteVarint(values[i].n);
    }
    NothingPacked(values);
    ProgressDone(full, start, w.out);
    return true;
  }

  lemma NothingPacked(values: seq<Value>)
    ensures Packed(values[|values|..]) == Some([])
  {
  }

  method WriteField(w: Writer, s: Schema, f: Field, values: seq<Value>, depth: nat) returns (ok: bool)
    modifies w
    ensures Wrote(old(w.out), old(w.forks), w.out, w.forks, ok, EncodeField(s, f, values, depth))
    decreases RECURSION_LIMIT + 1 - depth, 3
  {
    hide EncodeItems, Packed, Delimited, Tag;
    if f.repeated && f.packed && IsNumeric(f.kind) && values != [] {
      w.WriteVarint(f.id * 8 + 2);
      TagIsVarint(f.id, 2);
      w.Fork();
      ghost var before := w.forks;
      ok := WritePacked(w, values);
      if ok {
        assert w.out == Packed(values).value;
        w.Ldelim();
        assert before[..|before| - 1] == old(w.forks);
        Appended(old(w.out), Tag(f.id, 2), Delimited(Packed(values).value));
      }
    } else {
      ok := WriteItems(w, s, f, values, depth);
    }
  }

  lemma FieldsUnfold(s: Schema, fields: seq<Field>, m: seq<Entry>, i: nat, depth: nat)
    requires i < |fields|
    ensures var first := EncodeField(s, fields[i], Get(m, fields[i].id), depth);
            var rest := EncodeFields(s, fields[i + 1..], m, depth);
            EncodeFields(s, fields[i..], m, depth) ==
            if first.None? || rest.None? then None else Some(first.value + rest.value)
  {
    assert fields[i..][0] == fields[i] && fields[i..][1..] == fields[i + 1..];
    hide EncodeField;
  }

  lemma NoFieldsLeft(s: Schema, fields: seq<Field>, m: seq<Entry>, depth: nat)
    ensures EncodeFields(s, fields[|fields|..], m, depth) == Some([])
  {
  }

  /** The encoder: every field of the type in id order. */
  method WriteMessage(w: Writer, s: Schema, t: nat, m: seq<Entry>, depth: nat) returns (ok: bool)
    modifies w
    ensures Wrote(old(w.out), old(w.forks), w.out, w.forks, ok, EncodeMessage(s, t, m, depth))
    decreases RECURSION_LIMIT + 1 - depth, 5
  {
    hide EncodeField, EncodeFields, Progress, Get;
    if depth > RECURSION_LIMIT || t >= |s| {
      return false;
    }
    var fields := s[t];
    ghost var full, start := EncodeFields(s, fields, m, depth), w.out;
    assert fields[0..] == fields;
    ProgressStart(full, start);
    for i := 0 to |fields|
      invariant w.forks == old(w.forks)
      invariant Progress(full, EncodeFields(s, fields[i..], m, depth), start, w.out)
    {
      FieldsUnfold(s, fields, m, i, depth);
      ghost var now := w.out;
      ok := WriteField(w, s, fields[i], Get(m, fields[i].id), depth);
      if !ok {
        ProgressFails(full, start, now);
        return;
      }
      ProgressStep(full, EncodeField(s, fields[i], Get(m, fields[i].id), depth).value,
                   EncodeFields(s, fields[i + 1..], m, depth), start, now);
    }
    NoFieldsLeft(s, fields, m, depth);
    ProgressDone(full, start, w.out);
    return true;
  }

  // -------------------------------------------------------------------------
  // Reader
  // -------------------------------------------------------------------------

  /** `len` bounds the innermost message that is being read. */
  class Reader {
    const buf: Bytes
    var pos: nat
    var len: nat

    constructor (buf: Bytes)
      ensures Valid() && Rest() == buf && this.buf == buf && pos == 0 && len == |buf|
    {
      this.buf := buf;
      pos, len := 0, |buf|;
    }

    predicate Valid()
      reads this
    {
      pos <= len <= |buf|
    }

    /** The bytes left before the bound. */
    function Rest(): Bytes
      requires Valid()
      reads this
    {
      buf[pos..len]
    }

    method ReadVarintBytes() returns (n: Option<nat>)
      requires Valid()
      modifies this`pos
      ensures Valid() && pos >= old(pos)
      ensures var r := ReadVarint(old(Rest()), MAX_VARINT_BYTES);
              n.Some? == r.Some? && (r.Some? ==> n.value == r.value.value && Rest() == r.value.rest && pos > old(pos))
    {
      hide ReadVarint, Continues;
      ghost var bytes := Rest();
      var value: nat, scale: nat, count: nat := 0, 1, 0;
      ContinuesStart(bytes);
      while true
        invariant Valid() && count <= MAX_VARINT_BYTES && pos == old(pos) + count
        invariant Continues(bytes, value, scale, ReadVarint(Rest(), MAX_VARINT_BYTES - count))
        decreases MAX_VARINT_BYTES - count
      {
        ReadVarintUnfold(Rest(), MAX_VARINT_BYTES - count);
        if pos >= len || count == MAX_VARINT_BYTES {
          ContinuesEnd(bytes, value, scale, None);
          return None;
        }
        var b := buf[pos] as int;
        assert Rest()[0] == buf[pos] && Rest()[1..] == buf[pos + 1..len];
        pos := pos + 1;
        if b < 128 {
          ContinuesEnd(bytes, value, scale, Some(Read(b, Rest())));
          return Some(value + scale * b);
        }
        ContinuesMore(bytes, value, scale, b - 128, ReadVarint(Rest(), MAX_VARINT_BYTES - count - 1));
        value := value + scale * (b - 128);
        scale := scale * 128;
        count := count + 1;
      }
    }

    method ReadU32() returns (n: Option<nat>)
      requires Valid()
      modifies this`pos
      ensures Valid() && pos >= old(pos)
      ensures var r := ReadUInt32(old(Rest()));
              n.Some? == r.Some? && (r.Some? ==> n.value == r.value.value && Rest() == r.value.rest && pos > old(pos))
    {
      hide ReadVarint;
      n := ReadVarintBytes();
      if n.Some? {
        n := Some(n.value % U32_MODULUS);
      }
    }

    /** The length of what follows, when that many bytes are left before the bound. */
    method ReadLength() returns (n: Option<nat>)
      requires Valid()
      modifies this`pos
      ensures Valid() && pos >= old(pos)
      ensures var r := ReadBytes(old(Rest()));
              n.Some? == r.Some?
              && (r.Some? ==>
                    && n.value <= len - pos && pos > old(pos)
                    && buf[pos..pos + n.value] == r.value.value && buf[pos + n.value..len] == r.value.rest)
    {
      hide ReadUInt32;
      n := ReadU32();
      if n.Some? {
        if pos + n.value > len {
          return None;
        }
        assert Rest()[..n.value] == buf[pos..pos + n.value] && Rest()[n.value..] == buf[pos + n.value..len];
      }
    }

    method ReadBlob() returns (bytes: Option<Bytes>)
      requires Valid()
      modifies this`pos
      ensures Valid() && pos >= old(pos)
      ensures var r := ReadBytes(old(Rest()));
              bytes.Some? == r.Some?
              && (r.Some? ==> bytes.value == r.value.value && Rest() == r.value.rest && pos > old(pos))
    {
      hide ReadBytes;
      var n := ReadLength();
      if n.None? {
        return None;
      }
      bytes := Some(buf[pos..pos + n.value]);
      pos := pos + n.value;
    }

    method ReadNumberOf(kind: Kind) returns (n: Option<nat>)
      requires Valid() && IsNumeric(kind)
      modifies this`pos
      ensures Valid() && pos >= old(pos)
      ensures var r := ReadNumber(kind, old(Rest()));
              n.Some? == r.Some? && (r.Some? ==> n.value == r.value.value && Rest() == r.value.rest && pos > old(pos))
    {
      hide ReadVarint;
      n := ReadVarintBytes();
      if n.Some? {
        match kind
        case UInt32 => n := Some(n.value % U32_MODULUS);
        case UInt64 => n := Some(n.value % U64_MODULUS);
        case _ => n := Some(if n.value % U32_MODULUS != 0 then 1 else 0);
      }
    }

    method SkipType(wire: nat) returns (ok: bool)
      requires Valid()
      modifies this`pos
      ensures Valid() && pos >= old(pos)
      ensures var rest := Skip(wire, old(Rest()));
              ok == rest.Some? && (ok ==> Rest() == rest.value && pos > old(pos))
    {
      hide ReadVarint, ReadBytes;
      if wire == 0 {
        var n := ReadVarintBytes();
        return n.Some?;
      }
      if wire == 2 {
        var bytes := ReadBlob();
        return bytes.Some?;
      }
      if wire == 1 {
        if pos + 8 > len {
          return false;
        }
        assert Rest()[8..] == buf[pos + 8..len];
        pos := pos + 8;
        return true;
      }
      if wire == 5 {
        if pos + 4 > len {
          return false;
        }
        assert Rest()[4..] == buf[pos + 4..len];
        pos := pos + 4;
        return true;
      }
      return false;
    }

    /** The items of a packed list up to the bound. */
    method ReadPacked(kind: Kind) returns (values: Option<seq<Value>>)
      requires Valid() && IsNumeric(kind)
      modifies this`pos
      ensures Valid() && pos >= old(pos)
      ensures values == Unpacked(kind, old(Rest())) && (values.Some? ==> pos == len)
    {
      hide ReadNumber, Unpacked, PackedProgress;
      ghost var bytes := Rest();
      var list: seq<Value> := [];
      PackedStart(kind, bytes);
      while pos < len
        invariant Valid() && pos >= old(pos)
        invariant PackedProgress(kind, bytes, list, Rest())
        decreases len - pos
      {
        ghost var before := Rest();
        PackedMore(kind, bytes, list, before);
        var n := ReadNumberOf(kind);
        if n.None? {
          return None;
        }
        list := list + [Num(n.value)];
      }
      PackedEnd(kind, bytes, list, Rest());
      return Some(list);
    }

    /** One value of a field after its tag. */
    method ReadValue(s: Schema, f: Field, wire: nat, depth: nat) returns (v: Option<seq<Value>>)
      requires Valid()
      modifies this
      ensures v.Some? == DecodeValue(s, f, wire, old(Rest()), depth).Some?
      ensures v.Some? ==>
                Valid() && len == old(len) && pos > old(pos)
                && DecodeValue(s, f, wire, old(Rest()), depth) == Some(Read(v.value, Rest()))
      decreases RECURSION_LIMIT + 1 - depth, 0
    {
      hide ReadBytes, ReadNumber, Unpacked, DecodeMessage;
      match f.kind
      case Message(k) =>
        var n := ReadLength();
        if n.None? || depth > RECURSION_LIMIT {
          return None;
        }
        var inner := ReadMessage(s, k, n, depth + 1);
        if inner.None? {
          return None;
        }
        return Some([Msg(inner.value)]);
      case Blob =>
        var bytes := ReadBlob();
        if bytes.None? {
          return None;
        }
        return Some([Text(bytes.value)]);
      case _ =>
        if f.repeated && wire == 2 {
          var n := ReadLength();
          if n.None? {
            return None;
          }
          var saved := len;
          len := pos + n.value;
          v := ReadPacked(f.kind);
          len := saved;
          return;
        }
        var n := ReadNumberOf(f.kind);
        if n.None? {
          return None;
        }
        return Some([Num(n.value)]);
    }

    /** The decoder: a message of `length` bytes, or up to the bound; afterwards the reader stands exactly behind it. */
    method ReadMessage(s: Schema, t: nat, length: Option<nat>, depth: nat) returns (m: Option<seq<Entry>>)
      requires Valid() && (length.Some? ==> pos + length.value <= len)
      modifies this
      ensures var end := if length.Some? then old(pos) + length.value else old(len);
              && m == DecodeMessage(s, t, buf[old(pos)..end], depth)
              && (m.Some? ==> Valid() && pos == end && len == old(len))
      decreases RECURSION_LIMIT + 1 - depth, 2
    {
      hide DecodeFields, DecodeValue, Stored;
      if depth > RECURSION_LIMIT || t >= |s| {
        return None;
      }
      var saved := len;
      if length.Some? {
        len := pos + length.value;
      }
      ghost var bytes := Rest();
      var acc: seq<Entry> := [];
      while pos < len
        invariant Valid() && len == (if length.Some? then old(pos) + length.value else old(len))
        invariant DecodeFields(s, t, Rest(), acc, depth) == DecodeFields(s, t, bytes, [], depth)
        decreases len - pos
      {
        DecodeUnfold(s, t, Rest(), acc, depth);
        var tag := ReadU32();
        if tag.None? {
          return None;
        }
        var f := FieldById(s[t], tag.value / 8);
        if f.None? {
          var ok := SkipType(tag.value % 8);
          if !ok {
            return None;
          }
        } else {
          var v := ReadValue(s, f.value, tag.value % 8, depth);
          if v.None? {
            return None;
          }
          acc := Stored(acc, f.value, v.value);
        }
      }
      NothingToDecode(s, t, acc, depth);
      assert Rest() == [];
      len := saved;
      return Some(acc);
    }
  }

  /** Items read so far, and the payload left. */
  ghost predicate PackedProgress(kind: Kind, bytes: Bytes, list: seq<Value>, rest: Bytes)
    requires IsNumeric(kind)
  {
    Unpacked(kind, bytes) == if Unpacked(kind, rest).None? then None else Some(list + Unpacked(kind, rest).value)
  }

  lemma PackedStart(kind: Kind, bytes: Bytes)
    requires IsNumeric(kind)
    ensures PackedProgress(kind, bytes, [], bytes)
  {
    hide Unpacked;
    var r := Unpacked(kind, bytes);
    assert r.Some? ==> [] + r.value == r.value;
  }

  lemma PackedMore(kind: Kind, bytes: Bytes, list: seq<Value>, rest: Bytes)
    requires IsNumeric(kind) && rest != [] && PackedProgress(kind, bytes, list, rest)
    ensures var r := ReadNumber(kind, rest);
            if r.None? then Unpacked(kind, bytes) == None
            else PackedProgress(kind, bytes, list + [Num(r.value.value)], r.value.rest)
  {
    hide ReadNumber;
    var r := ReadNumber(kind, rest);
    if r.Some? {
      var more := Unpacked(kind, r.value.rest);
      if more.Some? {
        assert list + ([Num(r.value.value)] + more.value) == list + [Num(r.value.value)] + more.value;
      }
    }
  }

  lemma PackedEnd(kind: Kind, bytes: Bytes, list: seq<Value>, rest: Bytes)
    requires IsNumeric(kind) && rest == [] && PackedProgress(kind, bytes, list, rest)
    ensures Unpacked(kind, bytes) == Some(list)
  {
    assert list + [] == list;
  }

  lemma NothingToDecode(s: Schema, t: nat, m: seq<Entry>, depth: nat)
    requires t < |s|
    ensures DecodeFields(s, t, [], m, depth) == Some(m)
  {
  }

  lemma DecodeUnfold(s: Schema, t: nat, bytes: Bytes, m: seq<Entry>, depth: nat)
    requires t < |s| && bytes != []
    ensures var tag := ReadUInt32(bytes);
            DecodeFields(s, t, bytes, m, depth) ==
            if tag.None? then None
            else
              var f := FieldById(s[t], tag.value.value / 8);
              if f.None? then
                var rest := Skip(tag.value.value % 8, tag.value.rest);
                if rest.None? then None else DecodeFields(s, t, rest.value, m, depth)
              else
                var v := DecodeValue(s, f.value, tag.value.value % 8, tag.value.rest, depth);
                if v.None? then None else DecodeFields(s, t, v.value.rest, Stored(m, f.value, v.value.value), depth)
  {
    hide ReadUInt32, Skip, DecodeValue, Stored;
  }

  lemma ReadVarintUnfold(bytes: Bytes, limit: nat)
    ensures ReadVarint(bytes, limit) ==
            if bytes == [] || limit == 0 then None
            else if bytes[0] as int < 128 then Some(Read(bytes[0] as int, bytes[1..]))
            else
              var rest := ReadVarint(bytes[1..], limit - 1);
              if rest.None? then None else Some(Read(bytes[0] as int - 128 + 128 * rest.value.value, rest.value.rest))
  {
  }

  lemma ContinuesStart(bytes: Bytes)
    ensures Continues(bytes, 0, 1, ReadVarint(bytes, MAX_VARINT_BYTES))
  {
    hide ReadVarint;
  }

  lemma ContinuesEnd(bytes: Bytes, value: nat, scale: nat, rest: Option<Read<nat>>)
    requires Continues(bytes, value, scale, rest)
    ensures ReadVarint(bytes, MAX_VARINT_BYTES) ==
            if rest.None? then None else Some(Read(value + scale * rest.value.value, rest.value.rest))
  {
    hide ReadVarint;
  }

  /** What reading the whole varint amounts to when `value` was read so far, at the given scale. */
  ghost predicate Continues(bytes: Bytes, value: nat, scale: nat, rest: Option<Read<nat>>) {
    ReadVarint(bytes, MAX_VARINT_BYTES) ==
    if rest.None? then None else Some(Read(value + scale * rest.value.value, rest.value.rest))
  }

  lemma ContinuesMore(bytes: Bytes, value: nat, scale: nat, digit: nat, more: Option<Read<nat>>)
    requires Continues(bytes, value, scale, if more.None? then None
             else Some(Read(digit + 128 * more.value.value, more.value.rest)))
    ensures Continues(bytes, value + scale * digit, scale * 128, more)
  {
    hide ReadVarint;
    if more.Some? {
      assert scale * (digit + 128 * more.value.value) == scale * digit + scale * 128 * more.value.value;
    }
  }
}
