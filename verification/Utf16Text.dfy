/** Decoding a plain-text document: UTF-16 when a byte order mark says so, UTF-8 otherwise. The encoding is that of
    RFC 2781, sections 2.1, 2.2 and 3.2. */
module Utf16Text {
  import opened Common

  type byte = x: int | 0 <= x < 256
  type Unit = x: int | 0 <= x < 0x1_0000

  datatype ByteOrder = LittleEndian | BigEndian

  datatype TextError = InvalidEncoding | BinaryDisguise

  /** Decoded UTF-16 as code points, or UTF-8 kept as it is (without its mark). */
  datatype Text = Points(points: seq<int>) | Utf8(bytes: seq<byte>)

  predicate High(u: int) { 0xd800 <= u <= 0xdbff }

  predicate Low(u: int) { 0xdc00 <= u <= 0xdfff }

  predicate Scalar(p: int) {
    0 <= p <= 0x10_ffff && !High(p) && !Low(p)
  }

  predicate AllScalar(points: seq<int>) {
    forall i :: 0 <= i < |points| ==> Scalar(points[i])
  }

  // ---------- encoding ----------

  function EncodePoint(p: int): (units: seq<Unit>)
    requires Scalar(p)
  {
    if p < 0x1_0000 then [p] else [0xd800 + (p - 0x1_0000) / 0x400, 0xdc00 + (p - 0x1_0000) % 0x400]
  }

  function EncodeUnits(points: seq<int>): seq<Unit>
    requires AllScalar(points)
  {
    if points == [] then [] else EncodePoint(points[0]) + EncodeUnits(points[1..])
  }

  function UnitBytes(order: ByteOrder, u: Unit): seq<byte> {
    if order == BigEndian then [u / 256, u % 256] else [u % 256, u / 256]
  }

  function Serialize(order: ByteOrder, units: seq<Unit>): (bytes: seq<byte>)
    ensures |bytes| == 2 * |units|
  {
    if units == [] then [] else UnitBytes(order, units[0]) + Serialize(order, units[1..])
  }

  function Mark(order: ByteOrder): seq<byte> {
    if order == BigEndian then [0xfe, 0xff] else [0xff, 0xfe]
  }

  /** A marked UTF-16 document. */
  function Document(order: ByteOrder, points: seq<int>): seq<byte>
    requires AllScalar(points)
  {
    Mark(order) + Serialize(order, EncodeUnits(points))
  }

  // ---------- decoding ----------

  function UnitAt(order: ByteOrder, a: byte, b: byte): Unit {
    if order == BigEndian then 256 * a + b else 256 * b + a
  }

  function Parse(order: ByteOrder, bytes: seq<byte>): (units: seq<Unit>)
    requires |bytes| % 2 == 0
    ensures |units| == |bytes| / 2
  {
    if bytes == [] then [] else [UnitAt(order, bytes[0], bytes[1])] + Parse(order, bytes[2..])
  }

  function Join(high: int, low: int): int {
    0x1_0000 + (high - 0xd800) * 0x400 + (low - 0xdc00)
  }

  /** The code points of well-formed units; a lone or misplaced surrogate makes them ill-formed. */
  function DecodeUnits(units: seq<Unit>): Option<seq<int>> {
    if units == [] then Some([])
    else if High(units[0]) then
      if |units| < 2 || !Low(units[1]) then None
      else (match DecodeUnits(units[2..]) case None => None case Some(rest) => Some([Join(units[0], units[1])] + rest))
    else if Low(units[0]) then None
    else match DecodeUnits(units[1..]) case None => None case Some(rest) => Some([units[0]] + rest)
  }

  predicate Marked(data: seq<byte>) {
    |data| >= 2 && (data[..2] == Mark(LittleEndian) || data[..2] == Mark(BigEndian))
  }

  function OrderOf(data: seq<byte>): ByteOrder
    requires Marked(data)
  {
    if data[0] == 0xfe then BigEndian else LittleEndian
  }

  function Decode(data: seq<byte>, validUtf8: seq<byte> -> bool): Result<Text, TextError> {
    if Marked(data) then
      if |data| % 2 != 0 then Err(InvalidEncoding)
      else
        match DecodeUnits(Parse(OrderOf(data), data[2..]))
        case None => Err(InvalidEncoding)
        case Some(points) => if 0 in points then Err(BinaryDisguise) else Ok(Points(points))
    else if !validUtf8(data) then Err(InvalidEncoding)
    else if 0 in data then Err(BinaryDisguise)
    else
      var rest := if |data| >= 3 && data[..3] == [0xef, 0xbb, 0xbf] then data[3..] else data;
      if !validUtf8(rest) then Err(InvalidEncoding) else Ok(Utf8(rest))
  }

  /** The decoder as written: collect the units, check the surrogates with an index that skips over pairs, then decode. */
  method DecodeText(data: seq<byte>, validUtf8: seq<byte> -> bool) returns (r: Result<Text, TextError>)
    ensures r == Decode(data, validUtf8)
  {
    if |data| >= 2 && ((data[0] == 0xff && data[1] == 0xfe) || (data[0] == 0xfe && data[1] == 0xff)) {
      assert data[..2] == [data[0], data[1]];
      if (|data| - 2) % 2 != 0 { return Err(InvalidEncoding); }
      var order := if data[0] == 0xfe then BigEndian else LittleEndian;
      var units := CollectUnits(order, data[2..]);
      var index := 0;
      while index < |units|
        invariant index <= |units|
        invariant DecodeUnits(units[index..]).Some? <==> DecodeUnits(units).Some?
      {
        var unit := units[index];
        ghost var rest := units[index..];
        assert rest[1..] == units[index + 1..];
        if High(unit) {
          if index + 1 >= |units| || units[index + 1] < 0xdc00 || units[index + 1] > 0xdfff { return Err(InvalidEncoding); }
          assert rest[2..] == units[index + 2..];
          index := index + 1;
        } else if Low(unit) {
          return Err(InvalidEncoding);
        }
        index := index + 1;
      }
      var points := JoinUnits(units);
      if 0 in points { return Err(BinaryDisguise); }
      return Ok(Points(points));
    }
    assert !Marked(data) by { if |data| >= 2 { assert data[..2] == [data[0], data[1]]; } }
    if !validUtf8(data) { return Err(InvalidEncoding); }
    if 0 in data { return Err(BinaryDisguise); }
    var rest := data;
    if |data| >= 3 {
      assert data[..3] == [data[0], data[1], data[2]];
      if data[0] == 0xef && data[1] == 0xbb && data[2] == 0xbf { rest := data[3..]; }
    }
    if !validUtf8(rest) { return Err(InvalidEncoding); }
    r := Ok(Utf8(rest));
  }

  method CollectUnits(order: ByteOrder, bytes: seq<byte>) returns (units: seq<Unit>)
    requires |bytes| % 2 == 0
    ensures units == Parse(order, bytes)
  {
    units := [];
    var offset := 0;
    while offset < |bytes|
      invariant 0 <= offset <= |bytes| && offset % 2 == 0
      invariant units + Parse(order, bytes[offset..]) == Parse(order, bytes)
    {
      assert bytes[offset..][2..] == bytes[offset + 2..];
      units := units + [UnitAt(order, bytes[offset], bytes[offset + 1])];
      offset := offset + 2;
    }
  }

  method JoinUnits(units: seq<Unit>) returns (points: seq<int>)
    requires DecodeUnits(units).Some?
    ensures DecodeUnits(units) == Some(points)
  {
    points := [];
    var i := 0;
    assert units[0..] == units;
    while i < |units|
      invariant 0 <= i <= |units| && DecodeUnits(units[i..]).Some?
      invariant DecodeUnits(units).value == points + DecodeUnits(units[i..]).value
    {
      var width := if High(units[i]) then 2 else 1;
      ghost var tail := DecodeUnits(units[i..]).value;
      DecodeStep(units, i);
      var point := if width == 2 then Join(units[i], units[i + 1]) else units[i];
      Regroup(points, point, DecodeUnits(units[i + width..]).value, tail);
      points := points + [point];
      i := i + width;
    }
    Finished(units, points);
  }

  lemma DecodeStep(units: seq<Unit>, i: nat)
    requires i < |units| && DecodeUnits(units[i..]).Some?
    ensures var width := if High(units[i]) then 2 else 1;
            && i + width <= |units| && DecodeUnits(units[i + width..]).Some?
            && DecodeUnits(units[i..]).value
                 == [if width == 2 then Join(units[i], units[i + 1]) else units[i]] + DecodeUnits(units[i + width..]).value
  {
    var rest := units[i..];
    assert rest[1..] == units[i + 1..];
    if High(units[i]) { assert rest[2..] == units[i + 2..]; }
  }

  lemma Regroup(points: seq<int>, point: int, rest: seq<int>, tail: seq<int>)
    requires tail == [point] + rest
    ensures points + tail == points + [point] + rest
  {
  }

  lemma Finished(units: seq<Unit>, points: seq<int>)
    requires DecodeUnits(units).Some? && DecodeUnits(units).value == points + DecodeUnits(units[|units|..]).value
    ensures DecodeUnits(units) == Some(points)
  {
    assert units[|units|..] == [];
    assert DecodeUnits(units[|units|..]).value == [];
    var decoded := DecodeUnits(units).value;
    assert decoded == points;
    assert DecodeUnits(units) == Some(decoded);
  }

  // ---------- decoding inverts encoding ----------

  lemma {:induction false} ParseSerialize(order: ByteOrder, units: seq<Unit>)
    ensures Parse(order, Serialize(order, units)) == units
  {
    if units != [] {
      var bytes := Serialize(order, units);
      assert bytes[2..] == Serialize(order, units[1..]);
      ParseSerialize(order, units[1..]);
    }
  }

  lemma {:induction false} SerializeParse(order: ByteOrder, bytes: seq<byte>)
    requires |bytes| % 2 == 0
    ensures Serialize(order, Parse(order, bytes)) == bytes
  {
    if bytes != [] {
      SerializeParse(order, bytes[2..]);
      var units := Parse(order, bytes);
      assert units[1..] == Parse(order, bytes[2..]);
      assert UnitBytes(order, units[0]) == [bytes[0], bytes[1]];
      assert bytes == [bytes[0], bytes[1]] + bytes[2..];
    }
  }

  lemma {:induction false} DecodeEncode(points: seq<int>)
    requires AllScalar(points)
    ensures DecodeUnits(EncodeUnits(points)) == Some(points)
  {
    if points != [] {
      DecodeEncode(points[1..]);
      var p, units := points[0], EncodeUnits(points);
      assert units[|EncodePoint(p)|..] == EncodeUnits(points[1..]);
      assert points == [p] + points[1..];
      if p >= 0x1_0000 {
        assert units[0] == EncodePoint(p)[0] && units[1] == EncodePoint(p)[1];
        assert Join(units[0], units[1]) == p;
      }
    }
  }

  lemma {:induction false} EncodeDecode(units: seq<Unit>)
    requires DecodeUnits(units).Some?
    ensures var points := DecodeUnits(units).value; AllScalar(points) && EncodeUnits(points) == units
  {
    if units != [] {
      var points := DecodeUnits(units).value;
      if High(units[0]) {
        EncodeDecode(units[2..]);
        assert points[1..] == DecodeUnits(units[2..]).value;
        assert EncodePoint(points[0]) == [units[0], units[1]];
        assert units == [units[0], units[1]] + units[2..];
      } else {
        EncodeDecode(units[1..]);
        assert points[1..] == DecodeUnits(units[1..]).value;
        assert units == [units[0]] + units[1..];
      }
    }
  }

  /** Marked input is accepted exactly when it is the UTF-16 encoding of some code points other than NUL, and the decoder
      then returns exactly those points. */
  lemma AcceptsExactlyUtf16(data: seq<byte>, validUtf8: seq<byte> -> bool)
    requires Marked(data)
    ensures match Decode(data, validUtf8)
            case Ok(Points(points)) => AllScalar(points) && 0 !in points && data == Document(OrderOf(data), points)
            case Ok(Utf8(_)) => false
            case Err(_) => forall points :: AllScalar(points) && 0 !in points ==> data != Document(OrderOf(data), points)
  {
    var order := OrderOf(data);
    assert data == Mark(order) + data[2..];
    if |data| % 2 == 0 {
      SerializeParse(order, data[2..]);
      if DecodeUnits(Parse(order, data[2..])).Some? { EncodeDecode(Parse(order, data[2..])); }
    }
    forall points | AllScalar(points) && 0 !in points && data == Document(order, points)
      ensures Decode(data, validUtf8) == Ok(Points(points))
    {
      DecodesDocument(order, points, validUtf8);
    }
  }

  /** Decoding inverts encoding in both byte orders; a document that contains NUL is refused as binary. */
  lemma DecodesDocument(order: ByteOrder, points: seq<int>, validUtf8: seq<byte> -> bool)
    requires AllScalar(points)
    ensures Decode(Document(order, points), validUtf8) == if 0 in points then Err(BinaryDisguise) else Ok(Points(points))
  {
    DocumentParts(order, EncodeUnits(points));
    ParseSerialize(order, EncodeUnits(points));
    DecodeEncode(points);
  }

  lemma DocumentParts(order: ByteOrder, units: seq<Unit>)
    ensures var data := Mark(order) + Serialize(order, units);
            Marked(data) && OrderOf(data) == order && |data| % 2 == 0 && data[2..] == Serialize(order, units)
  {
    var data := Mark(order) + Serialize(order, units);
    assert data[..2] == Mark(order);
  }

  /** Known encodings, byte by byte. */
  lemma KnownDocuments()
    ensures Document(BigEndian, [0x41]) == [0xfe, 0xff, 0x00, 0x41] && Document(LittleEndian, [0x41]) == [0xff, 0xfe, 0x41, 0x00]
    ensures Document(BigEndian, [0x1_f600]) == [0xfe, 0xff, 0xd8, 0x3d, 0xde, 0x00]
  {
    assert [0x41][1..] == [] && [0x1_f600][1..] == [];
    assert EncodeUnits([0x41]) == [0x41] && EncodeUnits([0x1_f600]) == [0xd83d, 0xde00];
    assert [0x41 as Unit][1..] == [] && [0xd83d as Unit, 0xde00][1..] == [0xde00] && [0xde00 as Unit][1..] == [];
    assert Serialize(BigEndian, [0xde00]) == [0xde, 0x00];
  }

  // ---------- UTF-8 ----------

  const UTF8_MARK: seq<byte> := [0xef, 0xbb, 0xbf]

  /** Without a UTF-16 mark exactly valid UTF-8 without NUL is accepted, and kept as it is but for its own mark. */
  lemma AcceptsExactlyUtf8(data: seq<byte>, validUtf8: seq<byte> -> bool)
    requires !Marked(data)
    ensures match Decode(data, validUtf8)
            case Ok(Utf8(text)) =>
              && validUtf8(data) && validUtf8(text) && 0 !in data
              && data == if UTF8_MARK <= data then UTF8_MARK + text else text
            case Ok(Points(_)) => false
            case Err(BinaryDisguise) => validUtf8(data) && 0 in data
            case Err(InvalidEncoding) => !validUtf8(data) || (0 !in data && UTF8_MARK <= data && !validUtf8(data[3..]))
  {
  }

  /** UTF-8 text comes back unchanged, with its mark or without. */
  lemma DecodesUtf8(text: seq<byte>, validUtf8: seq<byte> -> bool)
    requires validUtf8(text) && validUtf8(UTF8_MARK + text) && 0 !in text && !Marked(text) && !(UTF8_MARK <= text)
    ensures Decode(text, validUtf8) == Ok(Utf8(text)) && Decode(UTF8_MARK + text, validUtf8) == Ok(Utf8(text))
  {
    var data := UTF8_MARK + text;
    assert data[..3] == UTF8_MARK && data[3..] == text;
    assert data[0] == 0xef && !Marked(data) by { assert data[..2] == [0xef, 0xbb]; }
    assert 0 !in data;
    assert !(|text| >= 3 && text[..3] == UTF8_MARK);
  }
}
