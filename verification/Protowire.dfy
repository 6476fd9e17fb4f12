/** The protobuf wire decoder: base-128 varints, four wire types, and a stop at the first thing it cannot read. */
module Protowire {
  import opened Wrappers

  newtype byte = x: int | 0 <= x < 256

  const WORD: nat := 0x1_0000_0000_0000_0000
  const HALF_WORD: nat := 0x8000_0000_0000_0000
  const MAX_VARINT_LEN := 10

  const WIRE_VARINT := 0
  const WIRE_FIXED64 := 1
  const WIRE_LENGTH_DELIMITED := 2
  const WIRE_FIXED32 := 5

  datatype Field = Field(number: nat, wireType: nat, data: seq<byte>, intValue: nat)

  /* Varints: encoding/binary's Uvarint, and what it means */

  /** The byte loop of Uvarint: `x` holds the groups read, `unit` is the weight of the next.
      The count is positive on success, zero when the buffer ends, negative when the value overflows. */
  function Uvarint(buf: seq<byte>, i: nat, x: nat, unit: nat): (r: (nat, int))
    requires i <= |buf|
    decreases |buf| - i
  {
    if i == |buf| then (0, 0)
    else if i == MAX_VARINT_LEN then (0, -(i + 1))
    else if buf[i] < 0x80 then
      if i == MAX_VARINT_LEN - 1 && buf[i] > 1 then (0, -(i + 1))
      else (x + buf[i] as nat * unit, i + 1)
    else Uvarint(buf, i + 1, x + (buf[i] as nat - 0x80) * unit, unit * 0x80)
  }

  /** Value and length, or None for an invalid varint. */
  function ReadVarint(buf: seq<byte>, pos: nat): (r: Option<(nat, nat)>)
    requires pos <= |buf|
  {
    var (value, n) := Uvarint(buf[pos..], 0, 0, 1);
    if n <= 0 then None else Some((value, pos + n))
  }

  /** The bytes of a varint: every byte but the last has its high bit set. */
  predicate WellFormed(bytes: seq<byte>) {
    && bytes != []
    && bytes[|bytes| - 1] < 0x80
    && forall i :: 0 <= i < |bytes| - 1 ==> bytes[i] >= 0x80
  }

  /** The number that base-128 groups stand for, least significant first. */
  function Value(bytes: seq<byte>): nat {
    if bytes == [] then 0 else (bytes[0] % 0x80) as nat + 0x80 * Value(bytes[1..])
  }

  /** The canonical encoding of a number. */
  function EncodeVarint(v: nat): (bytes: seq<byte>)
    ensures WellFormed(bytes) && Value(bytes) == v
  {
    if v < 0x80 then [v as byte]
    else
      var rest := EncodeVarint(v / 0x80);
      var bytes := [(0x80 + v % 0x80) as byte] + rest;
      assert bytes[1..] == rest;
      bytes
  }

  function Pow128(n: nat): nat {
    if n == 0 then 1 else 0x80 * Pow128(n - 1)
  }

  lemma {:induction false} Pow128Values()
    ensures Pow128(9) == HALF_WORD && WORD < Pow128(10)
  {
    assert Pow128(3) == 0x20_0000;
    assert Pow128(6) == 0x20_0000 * 0x20_0000;
    assert Pow128(9) == 0x20_0000 * 0x20_0000 * 0x20_0000;
  }

  /** `total` is what the groups read so far and the bytes to come stand for together. */
  ghost predicate Totals(total: nat, x: nat, unit: nat, bytes: seq<byte>) {
    total == x + unit * Value(bytes)
  }

  lemma {:induction false} TotalsStep(total: nat, x: nat, unit: nat, bytes: seq<byte>)
    requires bytes != [] && Totals(total, x, unit, bytes)
    ensures Totals(total, x + (bytes[0] % 0x80) as nat * unit, unit * 0x80, bytes[1..])
  {
    var low, high := (bytes[0] % 0x80) as nat, Value(bytes[1..]);
    assert unit * (low + 0x80 * high) == low * unit + (unit * 0x80) * high;
  }

  /** From the middle of a varint on: the loop adds up exactly what the remaining groups stand for. */
  lemma {:induction false} UvarintReads(buf: seq<byte>, i: nat, x: nat, unit: nat, bytes: seq<byte>, total: nat)
    requires i <= MAX_VARINT_LEN && i <= |buf| && bytes <= buf[i..] && WellFormed(bytes)
    requires unit == Pow128(i) && x < unit && Totals(total, x, unit, bytes)
    ensures i + |bytes| <= MAX_VARINT_LEN && total < WORD ==> Uvarint(buf, i, x, unit) == (total, i + |bytes|)
    ensures !(i + |bytes| <= MAX_VARINT_LEN && total < WORD) ==> Uvarint(buf, i, x, unit).1 < 0
    decreases |bytes|
  {
    assert bytes[0] == buf[i];
    TotalsStep(total, x, unit, bytes);
    if i == MAX_VARINT_LEN {
    } else if buf[i] < 0x80 {
      assert |bytes| == 1 && bytes[1..] == [];
      assert total == x + buf[i] as nat * unit;
      LastGroupFits(i, x, unit, buf[i]);
    } else {
      assert |bytes| > 1 && bytes[1..] <= buf[i + 1..] && WellFormed(bytes[1..]);
      GroupFits(x, unit, buf[i] as nat - 0x80);
      UvarintReads(buf, i + 1, x + (buf[i] as nat - 0x80) * unit, unit * 0x80, bytes[1..], total);
    }
  }

  lemma {:induction false} GroupFits(x: nat, unit: nat, low: nat)
    requires x < unit && low < 0x80
    ensures x + low * unit < unit * 0x80
  {
    assert low * unit <= 0x7f * unit;
  }

  /** The test on the tenth byte is the test for 64 bits. */
  lemma {:induction false} LastGroupFits(i: nat, x: nat, unit: nat, b: byte)
    requires i < MAX_VARINT_LEN && unit == Pow128(i) && x < unit && b < 0x80
    ensures x + b as nat * unit < WORD <==> !(i == MAX_VARINT_LEN - 1 && b > 1)
  {
    Pow128Values();
    if i == 9 {
      assert unit == HALF_WORD;
      assert b >= 2 ==> b as nat * unit >= 2 * HALF_WORD;
    } else {
      Pow128Grows(i + 1, 9);
      GroupFits(x, unit, b as nat);
    }
  }

  lemma {:induction false} Pow128Grows(m: nat, n: nat)
    requires m <= n
    ensures Pow128(m) <= Pow128(n)
    decreases n
  {
    if m < n {
      Pow128Grows(m, n - 1);
    }
  }

  /** A varint is read exactly when it ends within ten bytes and its value fits in 64 bits. */
  lemma {:induction false} ReadVarintExactly(buf: seq<byte>, pos: nat, bytes: seq<byte>)
    requires pos <= |buf| && bytes <= buf[pos..] && WellFormed(bytes)
    ensures ReadVarint(buf, pos)
         == if |bytes| <= MAX_VARINT_LEN && Value(bytes) < WORD then Some((Value(bytes), pos + |bytes|)) else None
  {
    assert buf[pos..][0..] == buf[pos..];
    UvarintReads(buf[pos..], 0, 0, 1, bytes, Value(bytes));
  }

  /** A buffer that ends inside a varint is not read. */
  lemma {:induction false} ReadVarintTruncated(buf: seq<byte>, pos: nat)
    requires pos <= |buf|
    requires forall i :: pos <= i < |buf| ==> buf[i] >= 0x80
    ensures ReadVarint(buf, pos).None?
  {
    UvarintTruncated(buf[pos..], 0, 0, 1);
  }

  lemma {:induction false} UvarintTruncated(buf: seq<byte>, i: nat, x: nat, unit: nat)
    requires i <= |buf|
    requires forall j :: i <= j < |buf| ==> buf[j] >= 0x80
    ensures Uvarint(buf, i, x, unit).1 <= 0
    decreases |buf| - i
  {
    if i < |buf| && i != MAX_VARINT_LEN {
      UvarintTruncated(buf, i + 1, x + (buf[i] as nat - 0x80) * unit, unit * 0x80);
    }
  }

  lemma {:induction false} EncodeVarintLength(v: nat, n: nat)
    requires n > 0 && v < Pow128(n)
    ensures |EncodeVarint(v)| <= n
  {
    if v >= 0x80 {
      EncodeVarintLength(v / 0x80, n - 1);
    }
  }

  /** All 2^64 values survive the round trip, whatever follows them. */
  lemma {:induction false} VarintRoundTrip(v: nat, rest: seq<byte>)
    requires v < WORD
    ensures ReadVarint(EncodeVarint(v) + rest, 0) == Some((v, |EncodeVarint(v)|))
  {
    Pow128Values();
    EncodeVarintLength(v, 10);
    assert (EncodeVarint(v) + rest)[0..] == EncodeVarint(v) + rest;
    ReadVarintExactly(EncodeVarint(v) + rest, 0, EncodeVarint(v));
  }

  /** Reading a varint looks at no byte after it; only a buffer that ended too early can read
      differently when extended. */
  lemma {:induction false} UvarintExtends(a: seq<byte>, b: seq<byte>, i: nat, x: nat, unit: nat)
    requires i <= |a|
    ensures Uvarint(a, i, x, unit).1 != 0 ==> Uvarint(a + b, i, x, unit) == Uvarint(a, i, x, unit)
    ensures Uvarint(a, i, x, unit).1 <= |a|
    decreases |a| - i
  {
    if i < |a| && i != MAX_VARINT_LEN && a[i] >= 0x80 {
      UvarintExtends(a, b, i + 1, x + (a[i] as nat - 0x80) * unit, unit * 0x80);
    }
  }

  /* Little-endian words */

  function LittleEndian(bytes: seq<byte>): nat {
    if bytes == [] then 0 else bytes[0] as nat + 0x100 * LittleEndian(bytes[1..])
  }

  function EncodeLittleEndian(v: nat, n: nat): (bytes: seq<byte>)
    ensures |bytes| == n
  {
    if n == 0 then [] else [(v % 0x100) as byte] + EncodeLittleEndian(v / 0x100, n - 1)
  }

  function Pow256(n: nat): nat {
    if n == 0 then 1 else 0x100 * Pow256(n - 1)
  }

  lemma {:induction false} LittleEndianRoundTrip(v: nat, n: nat)
    requires v < Pow256(n)
    ensures LittleEndian(EncodeLittleEndian(v, n)) == v
  {
    if n > 0 {
      LittleEndianRoundTrip(v / 0x100, n - 1);
      assert EncodeLittleEndian(v, n)[1..] == EncodeLittleEndian(v / 0x100, n - 1);
    }
  }

  /* Messages */

  /** Go's conversion of a 64-bit length to a signed int. */
  function ToInt(l: nat): int {
    if l < HALF_WORD then l else l - WORD
  }

  /** One turn of the decoding loop on what is left of the buffer: a field read (or passed over) and the bytes used,
      an early end of the message, or a length that does not fit an int, on which the allocation panics. */
  datatype Step = Read(field: Option<Field>, used: nat) | Stop | Panic

  function ReadField(rest: seq<byte>): (step: Step)
    requires rest != []
    ensures step.Read? ==> 0 < step.used <= |rest|
  {
    UvarintExtends(rest[0..], [], 0, 0, 1);
    match ReadVarint(rest, 0)
    case None => Stop
    case Some((tag, n)) => ReadPayload(rest, n, (tag / 8) % 0x1_0000_0000, tag % 8)
  }

  function ReadPayload(rest: seq<byte>, n: nat, number: nat, wireType: nat): (step: Step)
    requires 0 < n <= |rest|
    ensures step.Read? ==> 0 < step.used <= |rest|
  {
    UvarintExtends(rest[n..], [], 0, 0, 1);
    if wireType == WIRE_VARINT then
      match ReadVarint(rest, n)
      case None => Stop
      case Some((v, m)) => Read(Some(Field(number, wireType, [], v)), m)
    else if wireType == WIRE_FIXED64 then
      if n + 8 > |rest| then Stop
      else Read(Some(Field(number, wireType, [], LittleEndian(rest[n..n + 8]))), n + 8)
    else if wireType == WIRE_LENGTH_DELIMITED then
      match ReadVarint(rest, n)
      case None => Stop
      case Some((l, m)) =>
        if ToInt(l) > |rest| - m then Stop
        else if l >= HALF_WORD then Panic
        else Read(Some(Field(number, wireType, rest[m..m + l], 0)), m + l)
    else if wireType == WIRE_FIXED32 then
      if n + 4 > |rest| then Stop else Read(None, n + 4)
    else Stop
  }

  datatype End = Consumed | Stopped | Panicked

  datatype Decoded = Decoded(fields: seq<Field>, end: End)

  function Outcome(d: Decoded): Result<seq<Field>, ()> {
    if d.end.Panicked? then Err(()) else Ok(d.fields)
  }

  function Listed(field: Option<Field>): seq<Field> {
    if field.Some? then [field.value] else []
  }

  /** The meaning of a buffer: field after field until it is used up or one cannot be read. */
  function Decode(buf: seq<byte>): Decoded {
    if buf == [] then Decoded([], Consumed)
    else
      match ReadField(buf)
      case Stop => Decoded([], Stopped)
      case Panic => Decoded([], Panicked)
      case Read(field, used) =>
        var tail := Decode(buf[used..]);
        Decoded(Listed(field) + tail.fields, tail.end)
  }

  /** The fields read so far and what the rest decodes to make up the whole. */
  ghost predicate InProgress(whole: Decoded, fields: seq<Field>, rest: seq<byte>) {
    whole == Decoded(fields + Decode(rest).fields, Decode(rest).end)
  }

  /** What one step leaves of the work: a shorter rest, or the answer. */
  ghost predicate Advances(whole: Decoded, fields: seq<Field>, rest: seq<byte>, step: Step) {
    match step
    case Stop => whole == Decoded(fields, Stopped)
    case Panic => whole == Decoded(fields, Panicked)
    case Read(field, used) => 0 < used <= |rest| && InProgress(whole, fields + Listed(field), rest[used..])
  }

  lemma {:induction false} ReadAdvances(whole: Decoded, fields: seq<Field>, rest: seq<byte>)
    requires rest != [] && InProgress(whole, fields, rest)
    ensures Advances(whole, fields, rest, ReadField(rest))
  {
    match ReadField(rest)
    case Stop => assert fields + [] == fields;
    case Panic => assert fields + [] == fields;
    case Read(field, used) =>
      DecodeOnRead(rest, field, used);
      Associate(fields, Listed(field), Decode(rest[used..]).fields);
  }

  lemma {:induction false} NothingLeft(whole: Decoded, fields: seq<Field>, rest: seq<byte>)
    requires rest == [] && InProgress(whole, fields, rest)
    ensures whole == Decoded(fields, Consumed)
  {
    assert fields + [] == fields;
  }

  lemma {:induction false} NothingRead(buf: seq<byte>)
    ensures InProgress(Decode(buf), [], buf[0..])
  {
    assert buf[0..] == buf && [] + Decode(buf).fields == Decode(buf).fields;
  }

  /** The decoding loop; Err stands for the panic. */
  method DecodeMessage(buf: seq<byte>) returns (r: Result<seq<Field>, ()>)
    ensures r == Outcome(Decode(buf))
  {
    NothingRead(buf);
    r := DecodeFields(buf, Decode(buf));
  }

  method DecodeFields(buf: seq<byte>, ghost whole: Decoded) returns (r: Result<seq<Field>, ()>)
    requires InProgress(whole, [], buf[0..])
    ensures r == Outcome(whole)
  {
    var fields: seq<Field> := [];
    var pos := 0;
    while pos < |buf|
      invariant 0 <= pos <= |buf|
      invariant InProgress(whole, fields, buf[pos..])
      decreases |buf| - pos
    {
      var answer;
      answer, fields, pos := DecodeNext(buf, pos, whole, fields);
      if answer.Some? {
        return answer.value;
      }
    }
    NothingLeft(whole, fields, buf[pos..]);
    return Ok(fields);
  }

  /** One turn of the loop: the answer, if the message ends here, or the fields and the position after one more. */
  method DecodeNext(buf: seq<byte>, pos0: nat, ghost whole: Decoded, fields0: seq<Field>)
    returns (answer: Option<Result<seq<Field>, ()>>, fields: seq<Field>, pos: nat)
    requires pos0 < |buf| && InProgress(whole, fields0, buf[pos0..])
    ensures answer.Some? ==> answer.value == Outcome(whole)
    ensures answer.None? ==> pos0 < pos <= |buf| && InProgress(whole, fields, buf[pos..])
  {
    answer, fields, pos := None, fields0, pos0;
    var step := DecodeField(buf, pos0, whole, fields0);
    match step
    case Stop => answer := Some(Ok(fields));
    case Panic => answer := Some(Err(()));
    case Read(field, used) =>
      assert buf[pos0..][used..] == buf[pos0 + used..];
      fields := fields + Listed(field);
      pos := pos + used;
  }

  /** The body of the loop, on positions of the buffer. */
  method DecodeField(buf: seq<byte>, start: nat, ghost whole: Decoded, ghost fields: seq<Field>) returns (step: Step)
    requires start < |buf| && InProgress(whole, fields, buf[start..])
    ensures Advances(whole, fields, buf[start..], step)
  {
    ReadAdvances(whole, fields, buf[start..]);
    ghost var rest := buf[start..];
    ReadVarintAt(buf, start, 0);
    var tag := ReadVarint(buf, start);
    if tag.None? {
      return Stop;
    }
    var pos := tag.value.1;
    var fieldNum, wireType := (tag.value.0 / 8) % 0x1_0000_0000, tag.value.0 % 8;
    assert ReadField(rest) == ReadPayload(rest, pos - start, fieldNum, wireType);
    step := DecodePayload(buf, start, pos, fieldNum, wireType);
  }

  method DecodePayload(buf: seq<byte>, start: nat, pos0: nat, fieldNum: nat, wireType: nat) returns (step: Step)
    requires start < pos0 <= |buf|
    ensures step == ReadPayload(buf[start..], pos0 - start, fieldNum, wireType)
  {
    var pos := pos0;
    ReadVarintAt(buf, start, pos - start);
    if wireType == WIRE_VARINT {
      var v := ReadVarint(buf, pos);
      if v.None? {
        return Stop;
      }
      return Read(Some(Field(fieldNum, wireType, [], v.value.0)), v.value.1 - start);
    } else if wireType == WIRE_FIXED64 {
      if pos + 8 > |buf| {
        return Stop;
      }
      assert buf[pos..pos + 8] == buf[start..][pos - start..pos - start + 8];
      return Read(Some(Field(fieldNum, wireType, [], LittleEndian(buf[pos..pos + 8]))), pos + 8 - start);
    } else if wireType == WIRE_LENGTH_DELIMITED {
      var l := ReadVarint(buf, pos);
      if l.None? {
        return Stop;
      }
      pos := l.value.1;
      if ToInt(l.value.0) > |buf| - pos {
        return Stop;
      }
      if l.value.0 >= HALF_WORD {
        return Panic;
      }
      var end := pos + l.value.0;
      assert buf[pos..end] == buf[start..][pos - start..end - start];
      return Read(Some(Field(fieldNum, wireType, buf[pos..end], 0)), end - start);
    } else if wireType == WIRE_FIXED32 {
      return if pos + 4 > |buf| then Stop else Read(None, pos + 4 - start);
    }
    return Stop;
  }

  lemma {:induction false} DecodeOnRead(buf: seq<byte>, field: Option<Field>, used: nat)
    requires buf != [] && ReadField(buf) == Read(field, used)
    ensures Decode(buf) == Decoded(Listed(field) + Decode(buf[used..]).fields, Decode(buf[used..]).end)
  {
  }

  lemma {:induction false} ReadVarintAt(buf: seq<byte>, start: nat, n: nat)
    requires start + n <= |buf|
    ensures ReadVarint(buf, start + n)
         == match ReadVarint(buf[start..], n) { case None => None case Some((v, m)) => Some((v, start + m)) }
    ensures ReadVarint(buf, start + n).Some? ==> start + n < ReadVarint(buf, start + n).value.1 <= |buf|
  {
    assert buf[start..][n..] == buf[start + n..];
    UvarintExtends(buf[start + n..], [], 0, 0, 1);
  }

  /* Locality */

  lemma {:induction false} ReadVarintExtends(a: seq<byte>, b: seq<byte>, pos: nat)
    requires pos <= |a| && ReadVarint(a, pos).Some?
    ensures ReadVarint(a + b, pos) == ReadVarint(a, pos) && ReadVarint(a, pos).value.1 <= |a|
  {
    assert (a + b)[pos..] == a[pos..] + b;
    UvarintExtends(a[pos..], b, 0, 0, 1);
  }

  /** A field read from a buffer is read alike from every longer buffer. */
  lemma {:induction false} ReadFieldExtends(a: seq<byte>, b: seq<byte>)
    requires a != [] && !ReadField(a).Stop?
    ensures ReadField(a + b) == ReadField(a)
  {
    ReadVarintExtends(a, b, 0);
    var (tag, n) := ReadVarint(a, 0).value;
    if tag % 8 == WIRE_VARINT || tag % 8 == WIRE_LENGTH_DELIMITED {
      ReadVarintExtends(a, b, n);
      var (l, m) := ReadVarint(a, n).value;
      if tag % 8 == WIRE_LENGTH_DELIMITED && l < HALF_WORD {
        SliceExtends(a, b, m, m + l);
      }
    } else if tag % 8 == WIRE_FIXED64 {
      SliceExtends(a, b, n, n + 8);
    }
  }

  lemma {:induction false} SliceExtends(a: seq<byte>, b: seq<byte>, i: nat, j: nat)
    requires i <= j <= |a|
    ensures (a + b)[i..j] == a[i..j]
  {
  }

  /** A prefix of a buffer decodes to a prefix of its fields. */
  lemma {:induction false} PrefixDecodesToPrefix(a: seq<byte>, b: seq<byte>)
    ensures Decode(a).fields <= Decode(a + b).fields
    ensures Decode(a).end.Panicked? ==> Decode(a + b) == Decode(a)
    decreases |a|
  {
    if a != [] && !ReadField(a).Stop? {
      ReadFieldExtends(a, b);
      if ReadField(a).Read? {
        var Read(field, used) := ReadField(a);
        assert (a + b)[used..] == a[used..] + b;
        PrefixDecodesToPrefix(a[used..], b);
        DecodeOnRead(a, field, used);
        DecodeOnRead(a + b, field, used);
      }
    }
  }

  /** After a buffer that was used up, decoding goes on with what follows as if it stood alone. */
  lemma {:induction false} DecodeConcatenation(a: seq<byte>, b: seq<byte>)
    requires Decode(a).end.Consumed?
    ensures Decode(a + b).fields == Decode(a).fields + Decode(b).fields
    ensures Decode(a + b).end == Decode(b).end
    decreases |a|
  {
    if a == [] {
      assert a + b == b;
    } else {
      ReadFieldExtends(a, b);
      var Read(field, used) := ReadField(a);
      assert (a + b)[used..] == a[used..] + b;
      DecodeOnRead(a, field, used);
      DecodeOnRead(a + b, field, used);
      DecodeConcatenation(a[used..], b);
      Associate(Listed(field), Decode(a[used..]).fields, Decode(b).fields);
    }
  }

  lemma {:induction false} Associate<T>(xs: seq<T>, ys: seq<T>, zs: seq<T>)
    ensures xs + (ys + zs) == (xs + ys) + zs
  {
  }

  /* Round trip */

  /** A field as the specification of the encoding has it. */
  datatype Item =
    | Varint(number: nat, value: nat)
    | Fixed64(number: nat, value: nat)
    | Bytes(number: nat, data: seq<byte>)
    | Fixed32(number: nat, value: nat)

  predicate Encodable(f: Item) {
    && f.number < 0x1_0000_0000
    && match f
       case Varint(_, v) => v < WORD
       case Fixed64(_, v) => v < WORD
       case Bytes(_, data) => |data| < HALF_WORD
       case Fixed32(_, v) => v < 0x1_0000_0000
  }

  function WireType(f: Item): nat {
    match f
    case Varint(_, _) => WIRE_VARINT
    case Fixed64(_, _) => WIRE_FIXED64
    case Bytes(_, _) => WIRE_LENGTH_DELIMITED
    case Fixed32(_, _) => WIRE_FIXED32
  }

  function Payload(f: Item): seq<byte> {
    match f
    case Varint(_, v) => EncodeVarint(v)
    case Fixed64(_, v) => EncodeLittleEndian(v, 8)
    case Bytes(_, data) => EncodeVarint(|data|) + data
    case Fixed32(_, v) => EncodeLittleEndian(v, 4)
  }

  function EncodeItem(f: Item): seq<byte> {
    EncodeVarint(f.number * 8 + WireType(f)) + Payload(f)
  }

  function EncodeMessage(items: seq<Item>): seq<byte> {
    if items == [] then [] else EncodeItem(items[0]) + EncodeMessage(items[1..])
  }

  /** What the decoder makes of an item: fixed32 ones are passed over. */
  function Kept(f: Item): Option<Field> {
    match f
    case Varint(n, v) => Some(Field(n, WIRE_VARINT, [], v))
    case Fixed64(n, v) => Some(Field(n, WIRE_FIXED64, [], v))
    case Bytes(n, data) => Some(Field(n, WIRE_LENGTH_DELIMITED, data, 0))
    case Fixed32(_, _) => None
  }

  function KeptFields(items: seq<Item>): seq<Field> {
    if items == [] then [] else Listed(Kept(items[0])) + KeptFields(items[1..])
  }

  lemma {:induction false} VarintRoundTripAt(before: seq<byte>, v: nat, rest: seq<byte>)
    requires v < WORD
    ensures ReadVarint(before + EncodeVarint(v) + rest, |before|) == Some((v, |before| + |EncodeVarint(v)|))
  {
    var buf := before + EncodeVarint(v) + rest;
    assert buf[|before|..] == EncodeVarint(v) + rest;
    VarintRoundTrip(v, rest);
    ReadVarintAt(buf, |before|, 0);
  }

  lemma {:induction false} TagRead(buf: seq<byte>, number: nat, wireType: nat, n: nat)
    requires number < 0x1_0000_0000 && wireType < 8
    requires 0 < n <= |buf| && ReadVarint(buf, 0) == Some((number * 8 + wireType, n))
    ensures ReadField(buf) == ReadPayload(buf, n, number, wireType)
  {
    assert (number * 8 + wireType) / 8 == number && (number * 8 + wireType) % 8 == wireType;
  }

  lemma {:induction false} TagRoundTrip(number: nat, wireType: nat, rest: seq<byte>)
    requires number < 0x1_0000_0000 && wireType < 8
    ensures
      var tag := EncodeVarint(number * 8 + wireType);
      ReadField(tag + rest) == ReadPayload(tag + rest, |tag|, number, wireType)
  {
    VarintRoundTrip(number * 8 + wireType, rest);
    TagRead(EncodeVarint(number * 8 + wireType) + rest, number, wireType, |EncodeVarint(number * 8 + wireType)|);
  }

  lemma {:induction false} VarintPayload(tag: seq<byte>, f: Item, rest: seq<byte>)
    requires f.Varint? && Encodable(f) && tag != []
    ensures ReadPayload(tag + Payload(f) + rest, |tag|, f.number, WireType(f)) == Read(Kept(f), |tag + Payload(f)|)
  {
    VarintRoundTripAt(tag, f.value, rest);
  }

  lemma {:induction false} Fixed64Payload(tag: seq<byte>, f: Item, rest: seq<byte>)
    requires f.Fixed64? && Encodable(f) && tag != []
    ensures ReadPayload(tag + Payload(f) + rest, |tag|, f.number, WireType(f)) == Read(Kept(f), |tag + Payload(f)|)
  {
    assert (tag + Payload(f) + rest)[|tag|..|tag| + 8] == Payload(f);
    assert Pow256(4) == 0x1_0000_0000 && Pow256(8) == WORD;
    LittleEndianRoundTrip(f.value, 8);
  }

  lemma {:induction false} BytesRead(buf: seq<byte>, n: nat, number: nat, data: seq<byte>, m: nat)
    requires 0 < n <= |buf| && ReadVarint(buf, n) == Some((|data|, m))
    requires |data| < HALF_WORD && m + |data| <= |buf| && buf[m..m + |data|] == data
    ensures ReadPayload(buf, n, number, WIRE_LENGTH_DELIMITED)
         == Read(Some(Field(number, WIRE_LENGTH_DELIMITED, data, 0)), m + |data|)
  {
  }

  lemma {:induction false} SliceAfter(a: seq<byte>, b: seq<byte>, c: seq<byte>)
    ensures |a| + |b| <= |a + b + c| && (a + b + c)[|a|..|a| + |b|] == b
  {
  }

  lemma {:induction false} BytesPayload(tag: seq<byte>, f: Item, rest: seq<byte>)
    requires f.Bytes? && Encodable(f) && tag != []
    ensures ReadPayload(tag + Payload(f) + rest, |tag|, f.number, WireType(f)) == Read(Kept(f), |tag + Payload(f)|)
  {
    var length := EncodeVarint(|f.data|);
    VarintRoundTripAt(tag, |f.data|, f.data + rest);
    SliceAfter(tag + length, f.data, rest);
    Regroup(tag, length, f.data, rest);
    BytesRead(tag + Payload(f) + rest, |tag|, f.number, f.data, |tag| + |length|);
  }

  lemma {:induction false} Regroup(a: seq<byte>, b: seq<byte>, c: seq<byte>, d: seq<byte>)
    ensures a + (b + c) + d == a + b + (c + d)
    ensures a + (b + c) + d == (a + b) + c + d
    ensures |a + (b + c)| == |a| + |b| + |c|
  {
  }

  lemma {:induction false} PayloadRoundTrip(tag: seq<byte>, f: Item, rest: seq<byte>)
    requires Encodable(f) && tag != []
    ensures ReadPayload(tag + Payload(f) + rest, |tag|, f.number, WireType(f)) == Read(Kept(f), |tag + Payload(f)|)
  {
    match f
    case Varint(_, _) => VarintPayload(tag, f, rest);
    case Fixed64(_, _) => Fixed64Payload(tag, f, rest);
    case Bytes(_, _) => BytesPayload(tag, f, rest);
    case Fixed32(_, _) =>
  }

  lemma {:induction false} ItemRoundTrip(f: Item, rest: seq<byte>)
    requires Encodable(f)
    ensures ReadField(EncodeItem(f) + rest) == Read(Kept(f), |EncodeItem(f)|)
  {
    var tag := EncodeVarint(f.number * 8 + WireType(f));
    Associate(tag, Payload(f), rest);
    TagRoundTrip(f.number, WireType(f), Payload(f) + rest);
    PayloadRoundTrip(tag, f, rest);
  }

  /** Every list of fields comes back exactly, in order, with the fixed32 ones left out. */
  lemma {:induction false} MessageRoundTrip(items: seq<Item>)
    requires forall f :: f in items ==> Encodable(f)
    ensures Decode(EncodeMessage(items)) == Decoded(KeptFields(items), Consumed)
  {
    if items == [] {
    } else {
      var bytes := EncodeMessage(items);
      ItemRoundTrip(items[0], EncodeMessage(items[1..]));
      assert bytes[|EncodeItem(items[0])|..] == EncodeMessage(items[1..]);
      MessageRoundTrip(items[1..]);
    }
  }

  /** Groups, and wire types that there are not, end the message: whatever follows their tag. */
  lemma {:induction false} OtherWireTypesStop(number: nat, wireType: nat, rest: seq<byte>)
    requires number < 0x1_0000_0000 && wireType in {3, 4, 6, 7}
    ensures Decode(EncodeVarint(number * 8 + wireType) + rest) == Decoded([], Stopped)
  {
    TagRoundTrip(number, wireType, rest);
    OtherPayload(EncodeVarint(number * 8 + wireType) + rest, |EncodeVarint(number * 8 + wireType)|, number, wireType);
    DecodeOnStop(EncodeVarint(number * 8 + wireType) + rest);
  }

  lemma {:induction false} OtherPayload(buf: seq<byte>, n: nat, number: nat, wireType: nat)
    requires 0 < n <= |buf| && wireType in {3, 4, 6, 7}
    ensures ReadPayload(buf, n, number, wireType).Stop?
  {
  }

  lemma {:induction false} DecodeOnStop(buf: seq<byte>)
    requires buf != [] && ReadField(buf).Stop?
    ensures Decode(buf) == Decoded([], Stopped)
  {
  }

  lemma {:induction false} DecodeOnly(buf: seq<byte>, field: Option<Field>)
    requires buf != [] && ReadField(buf) == Read(field, |buf|)
    ensures Decode(buf) == Decoded(Listed(field), Consumed)
  {
    DecodeOnRead(buf, field, |buf|);
    assert buf[|buf|..] == [] && Listed(field) + [] == Listed(field);
  }

  /** The simple message of the encoding's specification: field 1, a varint, is 150. */
  lemma {:induction false} SpecifiedVarintMessage()
    ensures Decode([0x08, 0x96, 0x01]) == Decoded([Field(1, WIRE_VARINT, [], 150)], Consumed)
  {
    var buf: seq<byte> := [0x08, 0x96, 0x01];
    OneByteTag(buf, 1, WIRE_VARINT);
    assert buf[1..] == [0x96, 0x01];
    ReadVarintExactly(buf, 1, [0x96, 0x01]);
    assert [0x96 as byte, 0x01][1..] == [0x01] && Value([0x01]) == 1 && Value([0x96, 0x01]) == 150;
    DecodeOnly(buf, Some(Field(1, WIRE_VARINT, [], 150)));
  }

  lemma {:induction false} OneByteTag(buf: seq<byte>, number: nat, wireType: nat)
    requires buf != [] && number < 16 && wireType < 8 && buf[0] as nat == number * 8 + wireType
    ensures ReadField(buf) == ReadPayload(buf, 1, number, wireType)
  {
    assert [buf[0]] <= buf[0..] && WellFormed([buf[0]]);
    assert [buf[0]][1..] == [];
    ReadVarintExactly(buf, 0, [buf[0]]);
    TagRead(buf, number, wireType, 1);
  }

  /** The least significant byte of a fixed64 comes first. */
  lemma {:induction false} Fixed64LowByteFirst(b: byte)
    ensures Decode([0x09, b, 0, 0, 0, 0, 0, 0, 0]) == Decoded([Field(1, WIRE_FIXED64, [], b as nat)], Consumed)
  {
    var buf := [0x09, b, 0, 0, 0, 0, 0, 0, 0];
    OneByteTag(buf, 1, WIRE_FIXED64);
    assert buf[1..1 + 8] == [b] + Zeros(7);
    ZerosCountNothing(7);
    assert ([b] + Zeros(7))[1..] == Zeros(7);
    DecodeOnly(buf, Some(Field(1, WIRE_FIXED64, [], b as nat)));
  }

  /** A length-delimited field is its length and that many bytes; a fixed32 is four bytes that leave no field. */
  lemma {:induction false} BytesAndFixed32(b: byte, c: byte, d: byte, e: byte)
    ensures Decode([0x12, 1, b]) == Decoded([Field(2, WIRE_LENGTH_DELIMITED, [b], 0)], Consumed)
    ensures Decode([0x0d, b, c, d, e]) == Decoded([], Consumed)
  {
    var bytes, fixed := [0x12, 1, b], [0x0d, b, c, d, e];
    OneByteTag(bytes, 2, WIRE_LENGTH_DELIMITED);
    assert bytes[1..] == [1, b] && [1 as byte] <= bytes[1..] && [1 as byte][1..] == [];
    ReadVarintExactly(bytes, 1, [1]);
    BytesRead(bytes, 1, 2, [b], 2);
    DecodeOnly(bytes, Some(Field(2, WIRE_LENGTH_DELIMITED, [b], 0)));
    OneByteTag(fixed, 1, WIRE_FIXED32);
    DecodeOnly(fixed, None);
  }

  function Zeros(n: nat): seq<byte> {
    seq(n, i => 0)
  }

  lemma {:induction false} ZerosCountNothing(n: nat)
    ensures LittleEndian(Zeros(n)) == 0
  {
    if n == 0 {
    } else {
      assert Zeros(n)[1..] == Zeros(n - 1);
      ZerosCountNothing(n - 1);
    }
  }

  /* The panic, and the lookups */

  /** A length-delimited field opens the buffer, and its length does not fit a signed 64-bit int. */
  predicate OpensHugeLength(rest: seq<byte>) {
    match ReadVarint(rest, 0)
    case None => false
    case Some((tag, n)) =>
      && tag % 8 == WIRE_LENGTH_DELIMITED
      && n <= |rest|
      && ReadVarint(rest, n).Some?
      && ReadVarint(rest, n).value.0 >= HALF_WORD
  }

  lemma {:induction false} FieldPanicsExactly(rest: seq<byte>)
    requires rest != []
    ensures ReadField(rest).Panic? <==> OpensHugeLength(rest)
  {
    if ReadVarint(rest, 0).Some? {
      ReadVarintAt(rest, 0, 0);
      var n := ReadVarint(rest, 0).value.1;
      ReadVarintAt(rest, 0, n);
      VarintFitsWord(rest, n);
    }
  }

  /** What is read is always a 64-bit number. */
  lemma {:induction false} VarintFitsWord(buf: seq<byte>, pos: nat)
    requires pos <= |buf|
    ensures ReadVarint(buf, pos).Some? ==> ReadVarint(buf, pos).value.0 < WORD
  {
    UvarintFitsWord(buf[pos..], 0, 0, 1);
  }

  lemma {:induction false} UvarintFitsWord(buf: seq<byte>, i: nat, x: nat, unit: nat)
    requires i <= |buf| && i <= MAX_VARINT_LEN && unit == Pow128(i) && x < unit
    ensures Uvarint(buf, i, x, unit).1 > 0 ==> Uvarint(buf, i, x, unit).0 < WORD
    decreases |buf| - i
  {
    if i < |buf| && i < MAX_VARINT_LEN {
      if buf[i] < 0x80 {
        LastGroupFits(i, x, unit, buf[i]);
      } else {
        GroupFits(x, unit, buf[i] as nat - 0x80);
        UvarintFitsWord(buf, i + 1, x + (buf[i] as nat - 0x80) * unit, unit * 0x80);
      }
    }
  }

  /** Some number of bytes decode completely, and a field of a length beyond int comes right after them. */
  ghost predicate HasHugeLength(buf: seq<byte>) {
    exists pos :: 0 <= pos < |buf| && Decode(buf[..pos]).end.Consumed? && OpensHugeLength(buf[pos..])
  }

  /** Decoding panics exactly on the messages that hold such a field where a field is due. */
  lemma {:induction false} PanicsExactly(buf: seq<byte>)
    ensures Decode(buf).end.Panicked? <==> HasHugeLength(buf)
  {
    if Decode(buf).end.Panicked? {
      var pos := PanicPosition(buf);
      FieldPanicsExactly(buf[pos..]);
    }
    if HasHugeLength(buf) {
      var pos :| 0 <= pos < |buf| && Decode(buf[..pos]).end.Consumed? && OpensHugeLength(buf[pos..]);
      PanicsAt(buf, pos);
    }
  }

  lemma {:induction false} PanicsAt(buf: seq<byte>, pos: nat)
    requires pos < |buf| && Decode(buf[..pos]).end.Consumed? && OpensHugeLength(buf[pos..])
    ensures Decode(buf).end.Panicked?
  {
    FieldPanicsExactly(buf[pos..]);
    DecodeConcatenation(buf[..pos], buf[pos..]);
    assert buf[..pos] + buf[pos..] == buf;
  }

  /** The bytes before `pos` decode completely, and the field there panics. */
  ghost predicate PanicsHere(buf: seq<byte>, pos: nat) {
    pos < |buf| && Decode(buf[..pos]).end.Consumed? && ReadField(buf[pos..]).Panic?
  }

  lemma {:induction false} PanicComesFrom(buf: seq<byte>)
    requires Decode(buf).end.Panicked?
    ensures buf != [] && !ReadField(buf).Stop?
    ensures ReadField(buf).Read? ==> Decode(buf[ReadField(buf).used..]).end.Panicked?
  {
  }

  lemma {:induction false} PanicsAtStart(buf: seq<byte>)
    requires buf != [] && ReadField(buf).Panic?
    ensures PanicsHere(buf, 0)
  {
    assert buf[0..] == buf && buf[..0] == [];
  }

  lemma {:induction false} PanicsLater(buf: seq<byte>, used: nat, rest: nat)
    requires buf != [] && ReadField(buf).Read? && ReadField(buf).used == used
    requires PanicsHere(buf[used..], rest)
    ensures PanicsHere(buf, used + rest)
  {
    ReadFieldWithin(buf, used);
    ConsumedUpTo(buf, used, rest);
  }

  lemma {:induction false} PanicPosition(buf: seq<byte>) returns (pos: nat)
    requires Decode(buf).end.Panicked?
    ensures PanicsHere(buf, pos)
  {
    PanicComesFrom(buf);
    if ReadField(buf).Panic? {
      pos := 0;
      PanicsAtStart(buf);
    } else {
      var used := ReadField(buf).used;
      var rest := PanicPosition(buf[used..]);
      pos := used + rest;
      PanicsLater(buf, used, rest);
    }
  }

  lemma {:induction false} TakeTake(buf: seq<byte>, used: nat, rest: nat)
    requires used + rest <= |buf|
    ensures buf[..used + rest] == buf[..used] + buf[used..][..rest]
    ensures buf[used..][rest..] == buf[used + rest..]
  {
  }

  lemma {:induction false} ConsumedUpTo(buf: seq<byte>, used: nat, rest: nat)
    requires used + rest <= |buf|
    requires Decode(buf[..used]).end.Consumed? && Decode(buf[used..][..rest]).end.Consumed?
    ensures Decode(buf[..used + rest]).end.Consumed? && buf[used..][rest..] == buf[used + rest..]
  {
    TakeTake(buf, used, rest);
    DecodeConcatenation(buf[..used], buf[used..][..rest]);
  }

  /** A field read from a buffer is read alike from its own bytes alone. */
  lemma {:induction false} ReadFieldWithin(buf: seq<byte>, used: nat)
    requires buf != [] && ReadField(buf).Read? && ReadField(buf).used == used
    ensures Decode(buf[..used]).end.Consumed?
  {
    ReadFieldOfItsBytes(buf, used);
    DecodeOnRead(buf[..used], ReadField(buf).field, used);
    assert buf[..used][used..] == [];
  }

  lemma {:induction false} ReadVarintWithin(buf: seq<byte>, pos: nat, end: nat)
    requires pos <= end <= |buf| && ReadVarint(buf, pos).Some? && ReadVarint(buf, pos).value.1 <= end
    ensures ReadVarint(buf[..end], pos) == ReadVarint(buf, pos)
  {
    assert buf[..end][pos..] == buf[pos..][..end - pos];
    UvarintWithin(buf[pos..], end - pos, 0, 0, 1);
  }

  lemma {:induction false} UvarintWithin(buf: seq<byte>, end: nat, i: nat, x: nat, unit: nat)
    requires i <= end <= |buf| && 0 < Uvarint(buf, i, x, unit).1 <= end
    ensures Uvarint(buf[..end], i, x, unit) == Uvarint(buf, i, x, unit)
    decreases end - i
  {
    UvarintAdvances(buf, i, x, unit);
    if i != MAX_VARINT_LEN && buf[i] >= 0x80 {
      UvarintWithin(buf, end, i + 1, x + (buf[i] as nat - 0x80) * unit, unit * 0x80);
    }
  }

  lemma {:induction false} UvarintAdvances(buf: seq<byte>, i: nat, x: nat, unit: nat)
    requires i <= |buf|
    ensures Uvarint(buf, i, x, unit).1 > 0 ==> Uvarint(buf, i, x, unit).1 > i
    decreases |buf| - i
  {
    if i < |buf| && i != MAX_VARINT_LEN && buf[i] >= 0x80 {
      UvarintAdvances(buf, i + 1, x + (buf[i] as nat - 0x80) * unit, unit * 0x80);
    }
  }

  lemma {:induction false} ReadFieldOfItsBytes(buf: seq<byte>, used: nat)
    requires buf != [] && ReadField(buf).Read? && ReadField(buf).used == used
    ensures ReadField(buf[..used]) == ReadField(buf)
  {
    ReadVarintAt(buf, 0, 0);
    var (tag, n) := ReadVarint(buf, 0).value;
    ReadVarintAt(buf, 0, n);
    ReadVarintWithin(buf, 0, used);
    if tag % 8 == WIRE_VARINT || tag % 8 == WIRE_LENGTH_DELIMITED {
      ReadVarintWithin(buf, n, used);
      var (l, m) := ReadVarint(buf, n).value;
      if tag % 8 == WIRE_LENGTH_DELIMITED {
        assert buf[..used][m..m + l] == buf[m..m + l];
      }
    } else if tag % 8 == WIRE_FIXED64 {
      assert buf[..used][n..n + 8] == buf[n..n + 8];
    }
  }

  /** A tag and a length are enough: any length from 2^63 up, with nothing behind it. */
  lemma {:induction false} HugeLengthPanics(number: nat, l: nat)
    requires number < 0x1_0000_0000 && HALF_WORD <= l < WORD
    ensures Decode(EncodeVarint(number * 8 + WIRE_LENGTH_DELIMITED) + EncodeVarint(l)) == Decoded([], Panicked)
  {
    var tag := EncodeVarint(number * 8 + WIRE_LENGTH_DELIMITED);
    TagRoundTrip(number, WIRE_LENGTH_DELIMITED, EncodeVarint(l));
    LengthAfterTag(tag, l);
    HugeLengthRead(tag + EncodeVarint(l), |tag|, number, l);
    DecodeOnPanic(tag + EncodeVarint(l));
  }

  lemma {:induction false} LengthAfterTag(tag: seq<byte>, l: nat)
    requires l < WORD
    ensures ReadVarint(tag + EncodeVarint(l), |tag|) == Some((l, |tag + EncodeVarint(l)|))
  {
    VarintRoundTripAt(tag, l, []);
    assert tag + EncodeVarint(l) + [] == tag + EncodeVarint(l);
  }

  lemma {:induction false} DecodeOnPanic(buf: seq<byte>)
    requires buf != [] && ReadField(buf).Panic?
    ensures Decode(buf) == Decoded([], Panicked)
  {
  }

  lemma {:induction false} HugeLengthRead(buf: seq<byte>, n: nat, number: nat, l: nat)
    requires 0 < n <= |buf| && HALF_WORD <= l < WORD && ReadVarint(buf, n) == Some((l, |buf|))
    ensures ReadPayload(buf, n, number, WIRE_LENGTH_DELIMITED).Panic?
  {
  }

  /** The first varint under a number. */
  function IntFieldOf(fields: seq<Field>, num: nat): Option<nat> {
    if fields == [] then None
    else if fields[0].number == num && fields[0].wireType == WIRE_VARINT then Some(fields[0].intValue)
    else IntFieldOf(fields[1..], num)
  }

  /** The first length-delimited field under a number: a string or a nested message. */
  function DataFieldOf(fields: seq<Field>, num: nat): Option<seq<byte>> {
    if fields == [] then None
    else if fields[0].number == num && fields[0].wireType == WIRE_LENGTH_DELIMITED then Some(fields[0].data)
    else DataFieldOf(fields[1..], num)
  }

  method IntField(fields: seq<Field>, num: nat) returns (r: Option<nat>)
    ensures r == IntFieldOf(fields, num)
  {
    assert fields[0..] == fields;
    for i := 0 to |fields|
      invariant IntFieldOf(fields, num) == IntFieldOf(fields[i..], num)
    {
      if fields[i].number == num && fields[i].wireType == WIRE_VARINT {
        return Some(fields[i].intValue);
      }
      assert fields[i..][1..] == fields[i + 1..];
    }
    return None;
  }

  method DataField(fields: seq<Field>, num: nat) returns (r: Option<seq<byte>>)
    ensures r == DataFieldOf(fields, num)
  {
    assert fields[0..] == fields;
    for i := 0 to |fields|
      invariant DataFieldOf(fields, num) == DataFieldOf(fields[i..], num)
    {
      if fields[i].number == num && fields[i].wireType == WIRE_LENGTH_DELIMITED {
        return Some(fields[i].data);
      }
      assert fields[i..][1..] == fields[i + 1..];
    }
    return None;
  }

  /** The first item of a message that is a varint, or has data, under a number. */
  function FirstValue(items: seq<Item>, num: nat): Option<nat> {
    if items == [] then None
    else if items[0].Varint? && items[0].number == num then Some(items[0].value)
    else FirstValue(items[1..], num)
  }

  function FirstData(items: seq<Item>, num: nat): Option<seq<byte>> {
    if items == [] then None
    else if items[0].Bytes? && items[0].number == num then Some(items[0].data)
    else FirstData(items[1..], num)
  }

  /** Looking a number up in a decoded message finds what was first encoded under it, with that type. */
  lemma {:induction false} LookupsFindFirst(items: seq<Item>, num: nat)
    requires forall f :: f in items ==> Encodable(f)
    ensures IntFieldOf(Decode(EncodeMessage(items)).fields, num) == FirstValue(items, num)
    ensures DataFieldOf(Decode(EncodeMessage(items)).fields, num) == FirstData(items, num)
  {
    MessageRoundTrip(items);
    LookupsInKept(items, num);
  }

  lemma {:induction false} LookupsInKept(items: seq<Item>, num: nat)
    ensures IntFieldOf(KeptFields(items), num) == FirstValue(items, num)
    ensures DataFieldOf(KeptFields(items), num) == FirstData(items, num)
  {
    if items == [] {
    } else {
      LookupsInKept(items[1..], num);
      var rest := KeptFields(items[1..]);
      if items[0].Fixed32? {
        assert KeptFields(items) == rest;
      } else {
        assert KeptFields(items)[0] == Kept(items[0]).value && KeptFields(items)[1..] == rest;
      }
    }
  }
}
