/** Realtime event ids: 48 bits of milliseconds and 80 random bits, written as 26 base-32 digits. */
module EventId {
  import opened Common

  type byte = x: int | 0 <= x < 256

  const ALPHABET: string := "0123456789ABCDEFGHJKMNPQRSTVWXYZ"
  const MAX_MILLIS: int := 0xffff_ffff_ffff
  const ID_LENGTH: nat := 26

  /** `Zero` is the zero time, which has no timestamp worth encoding. */
  datatype Time = Zero | Millis(unix: int)

  function Pow(base: nat, e: nat): (r: nat)
    ensures base > 0 ==> r > 0
  {
    if e == 0 then 1 else base * Pow(base, e - 1)
  }

  /** The number a big-endian byte string denotes. */
  function Number(bytes: seq<byte>): nat {
    if bytes == [] then 0 else 256 * Number(bytes[..|bytes| - 1]) + bytes[|bytes| - 1]
  }

  /** The last `n` base-32 digits of a number, most significant first. */
  function Encode(value: nat, n: nat): (s: string)
    ensures |s| == n
  {
    if n == 0 then "" else Encode(value / 32, n - 1) + [ALPHABET[value % 32]]
  }

  predicate ValidTime(now: Time) {
    now.Millis? && 0 <= now.unix <= MAX_MILLIS
  }

  /** Six timestamp bytes, big-endian. */
  function TimeBytes(millis: nat): (bytes: seq<byte>)
    ensures |bytes| == 6
  {
    Bytes(millis, 6)
  }

  function Bytes(value: nat, n: nat): (bytes: seq<byte>)
    ensures |bytes| == n
  {
    if n == 0 then [] else Bytes(value / 256, n - 1) + [value % 256]
  }

  function EventIdOf(now: Time, random: seq<byte>): Option<string> {
    if !ValidTime(now) then None else Some(Encode(Number(TimeBytes(now.unix) + random), ID_LENGTH))
  }

  predicate ValidEventID(value: string) {
    && |value| == ID_LENGTH
    && '0' <= value[0] <= '7'
    && forall i :: 1 <= i < |value| ==> value[i] in ALPHABET
  }

  /** The id as the code computes it: bytes filled from the low end, then digits divided off from the low end. */
  method NewEventID(now: Time, random: seq<byte>) returns (id: Option<string>)
    requires |random| == 10
    ensures id == EventIdOf(now, random)
  {
    if now.Zero? || now.unix < 0 || now.unix > MAX_MILLIS { return None; }
    var value := new byte[16](_ => 0);
    var milliseconds: nat := now.unix;
    var index := 6;
    while index > 0
      invariant 0 <= index <= 6
      invariant Bytes(now.unix, 6) == Bytes(milliseconds, index) + value[index..6]
    {
      index := index - 1;
      value[index] := milliseconds % 256;
      assert value[index..6] == [milliseconds % 256] + value[index + 1..6];
      milliseconds := milliseconds / 256;
    }
    assert value[..6] == TimeBytes(now.unix);
    index := 6;
    while index < 16
      invariant 6 <= index <= 16
      invariant value[..6] == TimeBytes(now.unix) && value[6..index] == random[..index - 6]
    {
      value[index] := random[index - 6];
      index := index + 1;
    }
    assert value[..] == value[..6] + value[6..16];
    assert random[..10] == random;
    var number: nat := NumberOf(value[..]);
    var encoded: string := "";
    ghost var all := number;
    var n := ID_LENGTH;
    while n > 0
      invariant 0 <= n <= ID_LENGTH && Encode(all, ID_LENGTH) == Encode(number, n) + encoded
    {
      encoded := [ALPHABET[number % 32]] + encoded;
      number := number / 32;
      n := n - 1;
    }
    assert Encode(number, 0) + encoded == encoded;
    id := Some(encoded);
  }

  method NumberOf(bytes: seq<byte>) returns (number: nat)
    ensures number == Number(bytes)
  {
    number := 0;
    var i := 0;
    while i < |bytes|
      invariant i <= |bytes| && number == Number(bytes[..i])
    {
      assert bytes[..i + 1][..i] == bytes[..i];
      number := 256 * number + bytes[i];
      i := i + 1;
    }
    assert bytes[..i] == bytes;
  }

  // ---------- decoding ----------

  /** The first position of a character in the alphabet from `i` on, or 32. */
  function Search(c: char, i: nat): (d: nat)
    requires i <= 32
    ensures i <= d <= 32 && (d < 32 ==> ALPHABET[d] == c)
    ensures forall j :: i <= j < d ==> ALPHABET[j] != c
    decreases 32 - i
  {
    if i == 32 || ALPHABET[i] == c then i else Search(c, i + 1)
  }

  function DigitOf(c: char): (d: nat)
    requires c in ALPHABET
    ensures d < 32 && ALPHABET[d] == c
  {
    Search(c, 0)
  }

  lemma AlphabetDistinct(i: int, j: int)
    requires 0 <= i < 32 && 0 <= j < 32
    ensures ALPHABET[i] == ALPHABET[j] <==> i == j
    ensures ALPHABET[i] < ALPHABET[j] <==> i < j
  {
  }

  function Decode(id: string): nat
    requires forall i :: 0 <= i < |id| ==> id[i] in ALPHABET
  {
    if id == "" then 0 else 32 * Decode(id[..|id| - 1]) + DigitOf(id[|id| - 1])
  }

  lemma {:induction false} DecodeEncode(value: nat, n: nat)
    requires value < Pow(32, n)
    ensures forall i :: 0 <= i < n ==> Encode(value, n)[i] in ALPHABET
    ensures Decode(Encode(value, n)) == value
  {
    if n > 0 {
      DivideBelow(value, Pow(32, n - 1));
      DecodeEncode(value / 32, n - 1);
      var s := Encode(value, n);
      assert s[..n - 1] == Encode(value / 32, n - 1);
      AlphabetDistinct(DigitOf(ALPHABET[value % 32]), value % 32);
    }
  }

  lemma {:induction false} NumberBound(bytes: seq<byte>)
    ensures Number(bytes) < Pow(256, |bytes|)
  {
    if bytes != [] { NumberBound(bytes[..|bytes| - 1]); }
  }

  lemma {:induction false} BytesNumber(value: nat, n: nat)
    requires value < Pow(256, n)
    ensures Number(Bytes(value, n)) == value
  {
    if n > 0 {
      BytesNumber(value / 256, n - 1);
      assert Bytes(value, n)[..n - 1] == Bytes(value / 256, n - 1);
    }
  }

  lemma {:induction false} NumberAppend(a: seq<byte>, b: seq<byte>)
    ensures Number(a + b) == Number(a) * Pow(256, |b|) + Number(b)
  {
    if b == [] {
      assert a + b == a;
    } else {
      var n := |b| - 1;
      NumberAppend(a, b[..n]);
      assert (a + b)[..|a + b| - 1] == a + b[..n];
      MulStep(Number(a), Pow(256, n));
    }
  }

  lemma MulStep(x: nat, p: nat)
    ensures 256 * (x * p) == x * (256 * p)
  {
  }

  lemma Powers()
    ensures Pow(256, 6) == MAX_MILLIS + 1
    ensures Pow(256, 16) < Pow(32, 26) && Pow(256, 16) == 8 * Pow(32, 25)
  {
    assert Pow(256, 6) == 256 * (256 * (256 * (256 * (256 * (256 * 1)))));
    PowAdd(256, 6, 6);
    PowAdd(256, 12, 4);
    assert Pow(256, 4) == 256 * (256 * (256 * (256 * 1)));
    assert Pow(32, 5) == 32 * (32 * (32 * (32 * (32 * 1))));
    PowAdd(32, 5, 5);
    PowAdd(32, 10, 10);
    PowAdd(32, 20, 5);
    PowAdd(32, 25, 1);
  }

  lemma {:induction false} PowAdd(b: nat, m: nat, n: nat)
    ensures Pow(b, m + n) == Pow(b, m) * Pow(b, n)
  {
    if m > 0 {
      PowAdd(b, m - 1, n);
      Assoc(b, Pow(b, m - 1), Pow(b, n));
    }
  }

  lemma Assoc(a: nat, b: nat, c: nat)
    ensures a * (b * c) == (a * b) * c
  {
  }

  /** The 128-bit number of an id: the timestamp in the upper 48 bits, the random bytes below. */
  lemma IdNumber(now: Time, random: seq<byte>)
    requires ValidTime(now) && |random| == 10
    ensures Number(TimeBytes(now.unix) + random) == now.unix * Pow(256, 10) + Number(random)
    ensures Number(TimeBytes(now.unix) + random) < Pow(256, 16) < Pow(32, 26)
    ensures Number(random) < Pow(256, 10)
  {
    Powers();
    BytesNumber(now.unix, 6);
    NumberAppend(TimeBytes(now.unix), random);
    NumberBound(TimeBytes(now.unix) + random);
    NumberBound(random);
  }

  /** An id is refused exactly for a time outside the 48-bit range; otherwise it is valid and its digits decode to the same
      128-bit number. */
  lemma IdRoundTrip(now: Time, random: seq<byte>)
    requires |random| == 10
    ensures EventIdOf(now, random).Some? <==> ValidTime(now)
    ensures EventIdOf(now, random).Some? ==>
              var id := EventIdOf(now, random).value;
              && ValidEventID(id)
              && (forall i :: 0 <= i < |id| ==> id[i] in ALPHABET)
              && Decode(id) == Number(TimeBytes(now.unix) + random)
              && Decode(id) == now.unix * Pow(256, 10) + Number(random) && Number(random) < Pow(256, 10)
  {
    if ValidTime(now) {
      var value := Number(TimeBytes(now.unix) + random);
      IdNumber(now, random);
      DecodeEncode(value, 26);
      LeadingDigit(value);
    }
  }

  lemma MulMonotone(a: nat, b: nat, p: nat)
    requires a <= b
    ensures a * p <= b * p
  {
  }

  /** 128 bits leave the first of 26 base-32 digits at most 7. */
  lemma LeadingDigit(value: nat)
    requires value < Pow(256, 16)
    ensures '0' <= Encode(value, 26)[0] <= '7'
  {
    Powers();
    LeadingDigitBelow(value, 25);
  }

  lemma {:induction false} LeadingDigitBelow(value: nat, n: nat)
    requires value < 8 * Pow(32, n)
    ensures '0' <= Encode(value, n + 1)[0] <= '7'
  {
    if n > 0 {
      DivideBelow(value, 8 * Pow(32, n - 1));
      LeadingDigitBelow(value / 32, n - 1);
    } else {
      assert Encode(value, 1) == [ALPHABET[value]];
      AlphabetDistinct(value, 7);
      AlphabetDistinct(0, value);
    }
  }

  lemma SearchFinds(c: char)
    ensures Search(c, 0) < 32 <==> c in ALPHABET
  {
  }

  /** A string of digits is the encoding of a number, one of 128 bits if the first of 26 digits is below 8. */
  ghost predicate EncodingOf(id: string, value: nat) {
    && id == Encode(value, |id|) && value < Pow(32, |id|)
    && (id != "" && id[0] <= '7' ==> value < 8 * Pow(32, |id| - 1))
  }

  lemma {:induction false} EncodingFound(id: string) returns (value: nat)
    requires forall i :: 0 <= i < |id| ==> Search(id[i], 0) < 32
    ensures EncodingOf(id, value)
  {
    if id == "" {
      value := EncodingOfNothing(id);
    } else {
      var before := EncodingFound(id[..|id| - 1]);
      value := EncodingExtended(id, before);
    }
  }

  lemma EncodingOfNothing(id: string) returns (value: nat)
    requires id == ""
    ensures EncodingOf(id, value)
  {
    value := 0;
  }

  lemma EncodingExtended(id: string, before: nat) returns (value: nat)
    requires id != "" && Search(id[|id| - 1], 0) < 32 && EncodingOf(id[..|id| - 1], before)
    ensures EncodingOf(id, value)
  {
    var n := |id| - 1;
    var d := Search(id[n], 0);
    value := 32 * before + d;
    assert value / 32 == before && value % 32 == d;
    assert id == id[..n] + [ALPHABET[d]];
    if n == 0 { AlphabetDistinct(d, 7); } else { assert id[..n][0] == id[0]; }
  }

  /** The alphabet is the digits and the capital letters without I, L, O and U. */
  lemma AlphabetLetters(c: char)
    ensures c in ALPHABET <==> ('0' <= c <= '9' || 'A' <= c <= 'Z') && c != 'I' && c != 'L' && c != 'O' && c != 'U'
  {
    if ('0' <= c <= '9' || 'A' <= c <= 'Z') && c != 'I' && c != 'L' && c != 'O' && c != 'U' {
      var code := c as int;
      var d := code - if c <= '9' then 48 else if c <= 'H' then 55 else if c <= 'K' then 56 else if c <= 'N' then 57
                      else if c <= 'T' then 58 else 59;
      assert ALPHABET[d] == c;
    }
  }

  lemma ValidDigit(id: string, i: nat)
    requires ValidEventID(id) && i < |id|
    ensures Search(id[i], 0) < 32
  {
    if i == 0 { AlphabetLetters(id[0]); }
    SearchFinds(id[i]);
  }

  lemma EncodingOf128Bits(id: string, value: nat, length: nat)
    requires EncodingOf(id, value) && id != "" && id[0] <= '7' && length == |id| == ID_LENGTH
    ensures value < Pow(256, 16) && id == Encode(value, length)
  {
    Powers();
  }

  lemma ValidIsEncoding(id: string) returns (value: nat)
    requires ValidEventID(id)
    ensures value < Pow(256, 16) && id == Encode(value, ID_LENGTH)
  {
    forall i | 0 <= i < |id| ensures Search(id[i], 0) < 32 { ValidDigit(id, i); }
    value := EncodingFound(id);
    EncodingOf128Bits(id, value, ID_LENGTH);
  }

  /** The ids that pass the check are exactly the encodings of 128-bit numbers. */
  lemma ValidExactlyForNumbers(id: string)
    ensures ValidEventID(id) <==> exists value: nat :: value < Pow(256, 16) && id == Encode(value, ID_LENGTH)
  {
    Powers();
    if ValidEventID(id) { var value := ValidIsEncoding(id); }
    if exists value: nat :: value < Pow(256, 16) && id == Encode(value, ID_LENGTH) {
      var value: nat :| value < Pow(256, 16) && id == Encode(value, ID_LENGTH);
      DecodeEncode(value, ID_LENGTH);
      LeadingDigit(value);
    }
  }

  // ---------- order ----------

  /** Strict lexicographic order of strings of equal length. */
  predicate Less(a: string, b: string)
    requires |a| == |b|
  {
    exists k :: 0 <= k < |a| && (forall i :: 0 <= i < k ==> a[i] == b[i]) && a[k] < b[k]
  }

  /** A smaller string stays smaller when both are extended, and equal strings are ordered by what is appended. */
  lemma LessExtends(p: string, q: string, c: char, d: char)
    requires |p| == |q| && (Less(p, q) || (p == q && c < d))
    ensures Less(p + [c], q + [d])
  {
    var x, y := p + [c], q + [d];
    if p == q && c < d {
      assert x[|p|] < y[|p|];
    } else {
      var k :| 0 <= k < |p| && (forall i :: 0 <= i < k ==> p[i] == q[i]) && p[k] < q[k];
      assert forall i :: 0 <= i <= k ==> x[i] == p[i] && y[i] == q[i];
    }
  }

  lemma DivideBelow(b: nat, p: nat)
    requires b < 32 * p
    ensures b / 32 < p
  {
  }

  lemma {:induction false} EncodeIsMonotone(a: nat, b: nat, n: nat)
    requires a < b < Pow(32, n)
    ensures Less(Encode(a, n), Encode(b, n))
  {
    if n > 0 {
      DivideBelow(b, Pow(32, n - 1));
      var x, y := a / 32, b / 32;
      assert a == 32 * x + a % 32 && b == 32 * y + b % 32;
      if x < y { EncodeIsMonotone(x, y, n - 1); } else { AlphabetDistinct(a % 32, b % 32); }
      LessExtends(Encode(x, n - 1), Encode(y, n - 1), ALPHABET[a % 32], ALPHABET[b % 32]);
    }
  }

  lemma HighPartDecides(a: nat, b: nat, p: nat, x: nat, y: nat)
    requires x < p && (a < b || (a == b && x < y))
    ensures a * p + x < b * p + y
  {
    if a < b { MulMonotone(a + 1, b, p); }
  }

  /** Whatever the random bytes, an id of an earlier millisecond sorts before an id of a later one; within one millisecond
      ids sort by their random bytes. */
  lemma IdsSortByTime(earlier: Time, later: Time, r1: seq<byte>, r2: seq<byte>)
    requires ValidTime(earlier) && ValidTime(later) && |r1| == 10 && |r2| == 10
    requires earlier.unix < later.unix || (earlier.unix == later.unix && Number(r1) < Number(r2))
    ensures Less(EventIdOf(earlier, r1).value, EventIdOf(later, r2).value)
  {
    IdNumber(earlier, r1);
    IdNumber(later, r2);
    HighPartDecides(earlier.unix, later.unix, Pow(256, 10), Number(r1), Number(r2));
    EncodeIsMonotone(Number(TimeBytes(earlier.unix) + r1), Number(TimeBytes(later.unix) + r2), 26);
  }

  /** Conversely, sorting by id never contradicts the timestamps. */
  lemma OrderRevealsTime(a: Time, b: Time, r1: seq<byte>, r2: seq<byte>)
    requires ValidTime(a) && ValidTime(b) && |r1| == 10 && |r2| == 10
    requires Less(EventIdOf(a, r1).value, EventIdOf(b, r2).value)
    ensures a.unix <= b.unix
  {
    if b.unix < a.unix {
      IdsSortByTime(b, a, r2, r1);
      LessIsAsymmetric(EventIdOf(a, r1).value, EventIdOf(b, r2).value);
    }
  }

  lemma LessIsAsymmetric(a: string, b: string)
    requires |a| == |b| && Less(a, b)
    ensures !Less(b, a)
  {
    var k :| 0 <= k < |a| && (forall i :: 0 <= i < k ==> a[i] == b[i]) && a[k] < b[k];
    forall j | 0 <= j < |b| && (forall i :: 0 <= i < j ==> b[i] == a[i]) ensures !(b[j] < a[j]) {
    }
  }
}
