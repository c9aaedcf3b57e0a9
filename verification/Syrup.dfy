/** The part of the OCapN Syrup encoding that signed messages and ids use: length-prefixed byte
    strings, text and symbols, and records. `Encode` is the printer; `Decode` is a reference parser
    that accepts exactly the printer's image. */
module Syrup {
  import opened Foundation

  /** Text is given by its UTF-8 bytes, which is what its length prefix counts. */
  datatype Value =
    | Octets(data: Bytes)
    | Text(utf8: Bytes)
    | Symbol(name: Bytes)
    | Record(tag: Value, fields: seq<Value>)

  const COLON: byte := 58
  const QUOTE: byte := 34
  const APOSTROPHE: byte := 39
  const OPEN: byte := 60
  const CLOSE: byte := 62
  const ZERO: byte := 48

  // ----- decimal length prefixes

  predicate IsDigit(b: byte) {
    ZERO <= b < ZERO + 10
  }

  predicate AllDigits(d: Bytes) {
    forall i :: 0 <= i < |d| ==> IsDigit(d[i])
  }

  function DigitOf(n: nat): (b: byte)
    requires n < 10
    ensures IsDigit(b)
  {
    (48 + n) as byte
  }

  function Decimal(n: nat): (d: Bytes)
    ensures |d| > 0 && AllDigits(d)
    ensures d[0] == ZERO ==> n == 0
  {
    if n < 10 then [DigitOf(n)] else Decimal(n / 10) + [DigitOf(n % 10)]
  }

  function NatOf(d: Bytes): nat
    requires AllDigits(d)
  {
    if d == [] then 0 else NatOf(d[..|d| - 1]) * 10 + (d[|d| - 1] - ZERO) as nat
  }

  /** A decimal numeral as the printer writes it: no empty numeral, no leading zero. */
  predicate Canonical(d: Bytes) {
    |d| > 0 && AllDigits(d) && (d[0] == ZERO ==> |d| == 1)
  }

  lemma {:induction false} NatOfDecimal(n: nat)
    ensures Canonical(Decimal(n)) && NatOf(Decimal(n)) == n
  {
    if n >= 10 {
      NatOfDecimal(n / 10);
      assert Decimal(n)[..|Decimal(n)| - 1] == Decimal(n / 10);
    }
  }

  lemma {:induction false} DecimalOfNat(d: Bytes)
    requires Canonical(d)
    ensures Decimal(NatOf(d)) == d
    ensures |d| > 1 ==> NatOf(d) >= 10
  {
    var front, last := d[..|d| - 1], d[|d| - 1];
    if |d| == 1 {
      assert NatOf(front) == 0;
    } else {
      DecimalOfNat(front);
      if |front| == 1 {
        assert front[..0] == [];
        assert NatOf(front) == (front[0] - ZERO) as nat;
      }
      assert d == front + [last];
    }
  }

  /** How many digits `b` starts with. */
  function DigitRun(b: Bytes): (n: nat)
    ensures n <= |b| && AllDigits(b[..n])
    ensures n < |b| ==> !IsDigit(b[n])
  {
    if b == [] || !IsDigit(b[0]) then 0
    else
      var n := DigitRun(b[1..]);
      assert b[..n + 1] == [b[0]] + b[1..][..n];
      n + 1
  }

  lemma {:induction false} DigitRunOf(d: Bytes, rest: Bytes)
    requires AllDigits(d)
    requires rest != [] ==> !IsDigit(rest[0])
    ensures DigitRun(d + rest) == |d|
  {
    var b := d + rest;
    assert forall i :: 0 <= i < |d| ==> b[i] == d[i];
    assert forall i :: 0 <= i < DigitRun(b) ==> b[..DigitRun(b)][i] == b[i];
    assert rest != [] ==> b[|d|] == rest[0];
  }

  // ----- printing

  function Prefixed(data: Bytes, mark: byte): Bytes {
    Decimal(|data|) + [mark] + data
  }

  function Encode(v: Value): (b: Bytes)
    ensures |b| > 0 && (b[0] == OPEN || IsDigit(b[0]))
  {
    match v
    case Octets(data) => Prefixed(data, COLON)
    case Text(utf8) => Prefixed(utf8, QUOTE)
    case Symbol(name) => Prefixed(name, APOSTROPHE)
    case Record(tag, fields) => [OPEN] + Encode(tag) + EncodeAll(fields) + [CLOSE]
  }

  function EncodeAll(vs: seq<Value>): Bytes {
    if vs == [] then [] else Encode(vs[0]) + EncodeAll(vs[1..])
  }

  // ----- parsing

  function Unmark(mark: byte, data: Bytes): Option<Value> {
    if mark == COLON then Some(Octets(data))
    else if mark == QUOTE then Some(Text(data))
    else if mark == APOSTROPHE then Some(Symbol(data))
    else None
  }

  function DecodePrefixed(b: Bytes): (r: Option<(Value, Bytes)>)
    ensures r.Some? ==> |r.value.1| < |b|
  {
    var n := DigitRun(b);
    if n == |b| || !Canonical(b[..n]) then None
    else
      var len := NatOf(b[..n]);
      var body := b[n + 1..];
      if len > |body| then None
      else
        match Unmark(b[n], body[..len])
        case None => None
        case Some(v) => Some((v, body[len..]))
  }

  /** The first value of `b`, and what follows it. */
  function Decode(b: Bytes): (r: Option<(Value, Bytes)>)
    ensures r.Some? ==> |r.value.1| < |b|
    decreases |b|, 0
  {
    if b == [] then None
    else if b[0] == OPEN then
      match Decode(b[1..])
      case None => None
      case Some((tag, r1)) =>
        match DecodeAll(r1)
        case None => None
        case Some((fields, r2)) => Some((Record(tag, fields), r2))
    else DecodePrefixed(b)
  }

  /** The values of `b` up to the closing mark, and what follows the mark. */
  function DecodeAll(b: Bytes): (r: Option<(seq<Value>, Bytes)>)
    ensures r.Some? ==> |r.value.1| < |b|
    decreases |b|, 1
  {
    if b == [] then None
    else if b[0] == CLOSE then Some(([], b[1..]))
    else
      match Decode(b)
      case None => None
      case Some((v, r1)) =>
        match DecodeAll(r1)
        case None => None
        case Some((vs, r2)) => Some(([v] + vs, r2))
  }

  // ----- parsing undoes printing, whatever follows

  lemma PrefixedSlices(d: Bytes, mark: byte, data: Bytes, rest: Bytes)
    ensures var b := d + [mark] + data + rest;
            && b == d + ([mark] + data + rest)
            && |b| > |d| && b[..|d|] == d && b[|d|] == mark && b[|d| + 1..] == data + rest
    ensures (data + rest)[..|data|] == data && (data + rest)[|data|..] == rest
  {
  }

  lemma DecodePrefixedOf(data: Bytes, mark: byte, rest: Bytes)
    requires !IsDigit(mark) && Unmark(mark, data).Some?
    ensures DecodePrefixed(Prefixed(data, mark) + rest) == Some((Unmark(mark, data).value, rest))
  {
    var d := Decimal(|data|);
    PrefixedSlices(d, mark, data, rest);
    DigitRunOf(d, [mark] + data + rest);
    NatOfDecimal(|data|);
  }

  lemma RecordTail(tag: Bytes, fields: Bytes, rest: Bytes)
    ensures ([OPEN] + tag + fields + [CLOSE] + rest)[1..] == tag + (fields + [CLOSE] + rest)
    ensures [OPEN] + tag + fields + [CLOSE] + rest == [OPEN] + (tag + (fields + [CLOSE] + rest))
  {
  }

  /** Every encoding is self-delimiting. */
  lemma {:induction false} DecodeEncode(v: Value, rest: Bytes)
    ensures Decode(Encode(v) + rest) == Some((v, rest))
    decreases v, 0
  {
    match v
    case Octets(data) => DecodePrefixedOf(data, COLON, rest);
    case Text(utf8) => DecodePrefixedOf(utf8, QUOTE, rest);
    case Symbol(name) => DecodePrefixedOf(name, APOSTROPHE, rest);
    case Record(tag, fields) =>
      RecordTail(Encode(tag), EncodeAll(fields), rest);
      DecodeEncode(tag, EncodeAll(fields) + [CLOSE] + rest);
      DecodeAllEncodeAll(fields, rest);
  }

  lemma {:induction false} DecodeAllEncodeAll(vs: seq<Value>, rest: Bytes)
    ensures DecodeAll(EncodeAll(vs) + [CLOSE] + rest) == Some((vs, rest))
    decreases vs, 0
  {
    var b := EncodeAll(vs) + [CLOSE] + rest;
    if vs == [] {
      assert b[1..] == rest;
    } else {
      var tail := EncodeAll(vs[1..]) + [CLOSE] + rest;
      assert b == Encode(vs[0]) + tail;
      DecodeEncode(vs[0], tail);
      DecodeAllEncodeAll(vs[1..], rest);
      assert b[0] == Encode(vs[0])[0];
      assert [vs[0]] + vs[1..] == vs;
    }
  }

  // ----- printing undoes parsing

  /** What the parser takes for a prefixed value is its decimal length, its mark and its bytes. */
  lemma PrefixedParts(b: Bytes) returns (data: Bytes, mark: byte)
    requires DecodePrefixed(b).Some?
    ensures Unmark(mark, data) == Some(DecodePrefixed(b).value.0)
    ensures b == Prefixed(data, mark) + DecodePrefixed(b).value.1
  {
    var n := DigitRun(b);
    DecimalOfNat(b[..n]);
    var len := NatOf(b[..n]);
    var body := b[n + 1..];
    data, mark := body[..len], b[n];
    assert body == data + body[len..];
    assert b == b[..n] + [mark] + body;
  }

  lemma EncodeDecodePrefixed(b: Bytes)
    requires DecodePrefixed(b).Some?
    ensures b == Encode(DecodePrefixed(b).value.0) + DecodePrefixed(b).value.1
  {
    hide DecodePrefixed, Prefixed;
    var data, mark := PrefixedParts(b);
  }

  lemma {:induction false} EncodeDecode(b: Bytes)
    requires Decode(b).Some?
    ensures b == Encode(Decode(b).value.0) + Decode(b).value.1
    decreases |b|, 0
  {
    if b[0] == OPEN {
      var (tag, r1) := Decode(b[1..]).value;
      var (fields, r2) := DecodeAll(r1).value;
      EncodeDecode(b[1..]);
      EncodeDecodeAll(r1);
      RecordTail(Encode(tag), EncodeAll(fields), r2);
      assert b == [OPEN] + b[1..];
    } else {
      EncodeDecodePrefixed(b);
    }
  }

  lemma {:induction false} EncodeDecodeAll(b: Bytes)
    requires DecodeAll(b).Some?
    ensures b == EncodeAll(DecodeAll(b).value.0) + [CLOSE] + DecodeAll(b).value.1
    decreases |b|, 1
  {
    if b[0] != CLOSE {
      var (v, r1) := Decode(b).value;
      var (vs, r2) := DecodeAll(r1).value;
      EncodeDecode(b);
      EncodeDecodeAll(r1);
      assert ([v] + vs)[1..] == vs;
      assert b == Encode(v) + (EncodeAll(vs) + [CLOSE] + r2);
    }
  }

  /** A byte string starts with a value's encoding exactly when the parser says so. */
  lemma DecodeIffEncode(b: Bytes, v: Value, rest: Bytes)
    ensures Decode(b) == Some((v, rest)) <==> b == Encode(v) + rest
  {
    DecodeEncode(v, rest);
    if Decode(b) == Some((v, rest)) {
      EncodeDecode(b);
    }
  }

  // ----- what is printed

  /** The printed forms: `4:data`, `4"text`, `4'name`, and `<tag field ..>`. */
  lemma PrintedForms(data: Bytes, tag: Value, fields: seq<Value>)
    ensures Encode(Octets(data)) == Decimal(|data|) + [58] + data
    ensures Encode(Text(data)) == Decimal(|data|) + [34] + data
    ensures Encode(Symbol(data)) == Decimal(|data|) + [39] + data
    ensures Encode(Record(tag, fields)) == [60] + Encode(tag) + EncodeAll(fields) + [62]
    ensures Spells([58, 34, 39, 60, 62], ":\"'<>")
  {
  }

  // ----- ids

  /** `SyrupUuid`: the id's bytes as one byte string. */
  function SerializeUuid(id: Uuid): Bytes {
    Encode(Octets(id.bytes))
  }

  /** The reader takes one byte string and refuses any length but 16. */
  function DeserializeUuid(b: Bytes): Option<(Uuid, Bytes)> {
    match Decode(b)
    case Some((Octets(data), rest)) =>
      if |data| == UUID_LENGTH then Some((Uuid(data), rest)) else None
    case _ => None
  }

  /** An id is printed as `16:` and its bytes. */
  lemma UuidBytes(id: Uuid)
    requires |id.bytes| == 16
    ensures |SerializeUuid(id)| == 19 && Spells(SerializeUuid(id)[..3], "16:") && SerializeUuid(id)[3..] == id.bytes
  {
    assert Decimal(1) == [DigitOf(1)];
    assert Decimal(16) == [DigitOf(1), DigitOf(6)];
  }

  lemma UuidRoundTrip(b: Bytes, id: Uuid, rest: Bytes)
    ensures DeserializeUuid(b) == Some((id, rest)) <==>
            b == SerializeUuid(id) + rest && |id.bytes| == 16
  {
    DecodeIffEncode(b, Octets(id.bytes), rest);
  }
}
