/** Usage snapshots as stored: the provider's JSON twice, once compacted and escaped for reading, once byte for byte. */
module UsageSnapshot {
  import opened Common

  type byte = x: int | 0 <= x < 256

  // ---------- compaction and escaping ----------

  /** Where a JSON scanner is: outside strings, inside one, or after a backslash inside one. */
  datatype Scan = Outside | Inside | Escaped

  const QUOTE: byte := 0x22
  const BACKSLASH: byte := 0x5c

  function Advance(m: Scan, c: byte): Scan {
    match m
    case Outside => if c == QUOTE then Inside else Outside
    case Inside => if c == QUOTE then Outside else if c == BACKSLASH then Escaped else Inside
    case Escaped => Inside
  }

  predicate Blank(c: byte) {
    c == 0x20 || c == 0x09 || c == 0x0a || c == 0x0d
  }

  predicate Dropped(m: Scan, c: byte) {
    m == Outside && Blank(c)
  }

  /** Removes the white space between tokens. */
  function Compact(m: Scan, b: seq<byte>): seq<byte>
    decreases |b|
  {
    if b == [] then []
    else (if Dropped(m, b[0]) then [] else [b[0]]) + Compact(Advance(m, b[0]), b[1..])
  }

  predicate Html(c: byte) {
    c == 0x3c || c == 0x3e || c == 0x26
  }

  /** The bytes E2 80 A8 and E2 80 A9 are the line and paragraph separators U+2028 and U+2029. */
  predicate Separator(b: seq<byte>) {
    |b| >= 3 && b[0] == 0xe2 && b[1] == 0x80 && (b[2] == 0xa8 || b[2] == 0xa9)
  }

  function HexDigit(n: int): byte
    requires 0 <= n < 16
  {
    if n < 10 then 0x30 + n else 0x61 + n - 10
  }

  /** \u00xx for an HTML character. */
  function HtmlEscape(c: byte): (e: seq<byte>)
    ensures |e| == 6 && e[0] == BACKSLASH
  {
    [BACKSLASH, 0x75, 0x30, 0x30, HexDigit(c / 16), HexDigit(c % 16)]
  }

  /** \u2028 or \u2029. */
  function SeparatorEscape(third: byte): (e: seq<byte>)
    ensures |e| == 6 && e[0] == BACKSLASH
  {
    [BACKSLASH, 0x75, 0x32, 0x30, 0x32, HexDigit(third % 16)]
  }

  /** What the JSON encoder writes for raw bytes: compacted, with HTML characters and separators escaped. */
  function Project(m: Scan, b: seq<byte>): seq<byte>
    decreases |b|
  {
    if b == [] then []
    else if Html(b[0]) then HtmlEscape(b[0]) + Project(Advance(m, b[0]), b[1..])
    else if Separator(b) then SeparatorEscape(b[2]) + Project(Advance(Advance(Advance(m, b[0]), b[1]), b[2]), b[3..])
    else (if Dropped(m, b[0]) then [] else [b[0]]) + Project(Advance(m, b[0]), b[1..])
  }

  /** The scanner after an escape sequence is where it was after the character it stands for. */
  lemma EscapeScans(m: Scan, e: seq<byte>, rest: seq<byte>)
    requires |e| == 6 && e[0] == BACKSLASH && forall i :: 1 <= i < 6 ==> e[i] != QUOTE && e[i] != BACKSLASH && !Blank(e[i])
    ensures Compact(m, e + rest) == e + Compact(if m == Outside then Outside else Inside, rest)
  {
    var s := e + rest;
    var after := if m == Outside then Outside else if m == Inside then Escaped else Inside;
    assert s[1..][0] == e[1] && s[1..][1..][0] == e[2] && s[1..][1..][1..][0] == e[3] && s[1..][1..][1..][1..][0] == e[4];
    assert s[1..][1..][1..][1..][1..][0] == e[5] && s[1..][1..][1..][1..][1..][1..] == rest;
    var settled := if m == Outside then Outside else Inside;
    assert Compact(m, s) == [e[0]] + Compact(after, s[1..]);
    assert Compact(after, s[1..]) == [e[1]] + Compact(settled, s[1..][1..]);
    assert Compact(settled, s[1..][1..]) == [e[2]] + Compact(settled, s[1..][1..][1..]);
    assert Compact(settled, s[1..][1..][1..]) == [e[3]] + Compact(settled, s[1..][1..][1..][1..]);
    assert Compact(settled, s[1..][1..][1..][1..]) == [e[4]] + Compact(settled, s[1..][1..][1..][1..][1..]);
    assert Compact(settled, s[1..][1..][1..][1..][1..]) == [e[5]] + Compact(settled, rest);
    assert e == [e[0]] + [e[1]] + [e[2]] + [e[3]] + [e[4]] + [e[5]];
  }

  /** Compacting a projection changes nothing, whatever the bytes: nothing it contains can be removed again. */
  lemma {:induction false} ProjectionIsCompact(m: Scan, b: seq<byte>)
    ensures Compact(m, Project(m, b)) == Project(m, b)
    decreases |b|
  {
    if b != [] {
      if Html(b[0]) {
        EscapeScans(m, HtmlEscape(b[0]), Project(Advance(m, b[0]), b[1..]));
        ProjectionIsCompact(Advance(m, b[0]), b[1..]);
      } else if Separator(b) {
        EscapeScans(m, SeparatorEscape(b[2]), Project(Advance(Advance(Advance(m, b[0]), b[1]), b[2]), b[3..]));
        ProjectionIsCompact(Advance(Advance(Advance(m, b[0]), b[1]), b[2]), b[3..]);
      } else {
        ProjectionIsCompact(Advance(m, b[0]), b[1..]);
        if !Dropped(m, b[0]) {
          var p := Project(m, b);
          assert p[1..] == Project(Advance(m, b[0]), b[1..]);
        } else {
          assert Project(m, b) == Project(m, b[1..]);
        }
      }
    }
  }

  function HexValue(c: byte): int {
    if 0x30 <= c <= 0x39 then c - 0x30 else if 0x61 <= c <= 0x66 then c - 0x61 + 10 else -1
  }

  /** The number a \u escape names. */
  function EscapedPoint(e: seq<byte>): int
    requires |e| == 6
  {
    0x1000 * HexValue(e[2]) + 0x100 * HexValue(e[3]) + 0x10 * HexValue(e[4]) + HexValue(e[5])
  }

  /** Every escape is a \u escape of the character it stands for. */
  lemma EscapesNameTheirCharacter(c: byte, third: byte)
    ensures Html(c) ==> var e := HtmlEscape(c); e[0] == BACKSLASH && e[1] == 0x75 && EscapedPoint(e) == c
    ensures third == 0xa8 || third == 0xa9 ==>
              var e := SeparatorEscape(third); e[0] == BACKSLASH && e[1] == 0x75 && EscapedPoint(e) == 0x2028 + (third - 0xa8)
  {
  }

  /** The readable copy holds no HTML character, and without such characters and separators it is the bytes compacted. */
  lemma {:induction false} ProjectionIsSafe(m: Scan, b: seq<byte>)
    ensures forall c :: c in Project(m, b) ==> !Html(c)
    ensures (forall i :: 0 <= i < |b| ==> !Html(b[i]) && !Separator(b[i..])) ==> Project(m, b) == Compact(m, b)
    decreases |b|
  {
    if b != [] {
      if Html(b[0]) {
        ProjectionIsSafe(Advance(m, b[0]), b[1..]);
        assert b[0..] == b;
      } else if Separator(b) {
        ProjectionIsSafe(Advance(Advance(Advance(m, b[0]), b[1]), b[2]), b[3..]);
        assert b[0..] == b;
      } else {
        ProjectionIsSafe(Advance(m, b[0]), b[1..]);
        assert forall i :: 0 <= i < |b[1..]| ==> b[1..][i] == b[i + 1] && b[1..][i..] == b[i + 1..];
      }
    }
  }

  // ---------- snapshots ----------

  datatype Status = Reported | CompleteStatus | UnavailableStatus | OtherStatus

  datatype Item = Item(category: string, unit: string, tier: string, quantity: int)

  /** `hash` is the SHA-256 of the raw bytes, 0 when absent. */
  datatype Snapshot = Snapshot(status: Status, raw: seq<byte>, items: seq<Item>, hash: nat)

  /** The stored document; its JSON value and its byte copy are absent when there is nothing to store. */
  datatype Stored = Stored(status: Status, json: seq<byte>, bytes: seq<byte>, items: seq<Item>, hash: nat)

  datatype DecodeError = InvalidBytes | Disagreement

  const CATEGORIES: set<string> := {"input", "output", "cache_read", "cache_write", "media"}

  function KeyOf(item: Item): string {
    item.category + "|" + item.unit + "|" + item.tier
  }

  predicate ItemAllowed(item: Item) {
    item.unit != "" && item.quantity >= 0 && item.category in CATEGORIES
  }

  predicate ItemsAllowed(items: seq<Item>) {
    && items != []
    && (forall i :: 0 <= i < |items| ==> ItemAllowed(items[i]))
    && forall i, j :: 0 <= i < j < |items| ==> KeyOf(items[i]) != KeyOf(items[j])
  }

  method ValidateUsageItems(items: seq<Item>) returns (ok: bool)
    ensures ok <==> ItemsAllowed(items)
  {
    if items == [] { return false; }
    var seen: set<string> := {};
    var i := 0;
    while i < |items|
      invariant i <= |items|
      invariant forall j :: 0 <= j < i ==> ItemAllowed(items[j]) && KeyOf(items[j]) in seen
      invariant forall key :: key in seen ==> exists j :: 0 <= j < i && KeyOf(items[j]) == key
      invariant forall j, k :: 0 <= j < k < i ==> KeyOf(items[j]) != KeyOf(items[k])
    {
      if !ItemAllowed(items[i]) { return false; }
      if KeyOf(items[i]) in seen { return false; }
      seen := seen + {KeyOf(items[i])};
      i := i + 1;
    }
    ok := true;
  }

  // ---------- what a key identifies ----------

  predicate SameIdentity(a: Item, b: Item) {
    a.category == b.category && a.unit == b.unit && a.tier == b.tier
  }

  /** Part of one item's tier reads as the end of the other's unit. */
  predicate Shifted(a: Item, b: Item) {
    && |b.unit| < |a.unit| && a.unit[..|b.unit|] == b.unit && a.unit[|b.unit|] == '|'
    && b.tier == a.unit[|b.unit| + 1..] + "|" + a.tier
  }

  predicate Undivided(text: string) {
    '|' !in text
  }

  lemma HeadSplits(x: string, s: string, y: string, t: string)
    requires Undivided(x) && Undivided(y)
    ensures x + "|" + s == y + "|" + t <==> x == y && s == t
  {
    var a, b := x + "|" + s, y + "|" + t;
    if |x| < |y| {
      ShorterHead(x, s, y, t);
    } else if |y| < |x| {
      ShorterHead(y, t, x, s);
    } else {
      assert a[..|x|] == x && b[..|y|] == y;
      assert a[|x| + 1..] == s && b[|y| + 1..] == t;
    }
  }

  lemma ShorterHead(x: string, s: string, y: string, t: string)
    requires Undivided(y) && |x| < |y|
    ensures x + "|" + s != y + "|" + t
  {
    assert y[|x|] in y;
    assert (x + "|" + s)[|x|] == '|' && (y + "|" + t)[|x|] == y[|x|];
  }

  lemma ShiftedTails(a: Item, b: Item)
    requires a.unit + "|" + a.tier == b.unit + "|" + b.tier && |b.unit| < |a.unit|
    ensures Shifted(a, b)
  {
    var k, n := a.unit + "|" + a.tier, |b.unit|;
    assert k[..n] == a.unit[..n] && k[n] == a.unit[n] && k[n + 1..] == a.unit[n + 1..] + "|" + a.tier;
    assert (b.unit + "|" + b.tier)[..n] == b.unit && (b.unit + "|" + b.tier)[n + 1..] == b.tier;
  }

  lemma TailsOfShifted(a: Item, b: Item)
    requires Shifted(a, b)
    ensures a.unit + "|" + a.tier == b.unit + "|" + b.tier
  {
    var n := |b.unit|;
    assert a.unit == a.unit[..n] + ['|'] + a.unit[n + 1..];
  }

  /** Two allowed items share a key exactly when they are of one category and agree in unit and tier, or one's tier continues the
      other's unit across the separator. */
  lemma KeysCollideExactly(a: Item, b: Item)
    requires ItemAllowed(a) && ItemAllowed(b)
    ensures KeyOf(a) == KeyOf(b) <==> SameIdentity(a, b) || (a.category == b.category && (Shifted(a, b) || Shifted(b, a)))
  {
    assert KeyOf(a) == a.category + "|" + (a.unit + "|" + a.tier) && KeyOf(b) == b.category + "|" + (b.unit + "|" + b.tier);
    HeadSplits(a.category, a.unit + "|" + a.tier, b.category, b.unit + "|" + b.tier);
    if a.unit + "|" + a.tier == b.unit + "|" + b.tier {
      if |b.unit| < |a.unit| { ShiftedTails(a, b); }
      else if |a.unit| < |b.unit| { ShiftedTails(b, a); }
      else {
        assert (a.unit + "|" + a.tier)[..|a.unit|] == a.unit && (b.unit + "|" + b.tier)[..|b.unit|] == b.unit;
        assert (a.unit + "|" + a.tier)[|a.unit| + 1..] == a.tier && (b.unit + "|" + b.tier)[|b.unit| + 1..] == b.tier;
      }
    }
    if Shifted(a, b) { TailsOfShifted(a, b); }
    if Shifted(b, a) { TailsOfShifted(b, a); }
  }

  /** A list of allowed, pairwise different items is refused exactly when two of one category are shifted against each other. */
  lemma DifferentItemsRefusedExactly(items: seq<Item>)
    requires items != [] && forall i :: 0 <= i < |items| ==> ItemAllowed(items[i])
    requires forall i, j :: 0 <= i < j < |items| ==> !SameIdentity(items[i], items[j])
    ensures ItemsAllowed(items) <==>
              forall i, j :: 0 <= i < j < |items| && items[i].category == items[j].category ==>
                !Shifted(items[i], items[j]) && !Shifted(items[j], items[i])
  {
    forall i, j | 0 <= i < j < |items|
      ensures KeyOf(items[i]) != KeyOf(items[j]) <==>
                (items[i].category == items[j].category ==> !Shifted(items[i], items[j]) && !Shifted(items[j], items[i]))
    {
      KeysCollideExactly(items[i], items[j]);
    }
  }

  /** So for units without the separator, as the adapters write them ("token"), keys identify items and a list is valid exactly
      when its items are allowed and differ. */
  lemma UndividedUnitsIdentify(items: seq<Item>)
    requires forall i :: 0 <= i < |items| ==> Undivided(items[i].unit)
    ensures ItemsAllowed(items) <==>
              && items != [] && (forall i :: 0 <= i < |items| ==> ItemAllowed(items[i]))
              && forall i, j :: 0 <= i < j < |items| ==> !SameIdentity(items[i], items[j])
  {
    if forall i :: 0 <= i < |items| ==> ItemAllowed(items[i]) {
      forall i, j | 0 <= i < j < |items| ensures KeyOf(items[i]) == KeyOf(items[j]) <==> SameIdentity(items[i], items[j]) {
        KeysCollideExactly(items[i], items[j]);
      }
    }
  }

  /** A pair that collides, with a separator inside a unit. */
  lemma KeysCanCollide()
    ensures var a, b := Item("input", "a|b", "c", 1), Item("input", "a", "b|c", 1);
            !SameIdentity(a, b) && KeyOf(a) == KeyOf(b) && !ItemsAllowed([a, b])
  {
    var a, b := Item("input", "a|b", "c", 1), Item("input", "a", "b|c", 1);
    assert KeyOf(a) == "input|a|b|c" && KeyOf(b) == "input|a|b|c";
    assert [a, b][0] == a && [a, b][1] == b;
  }

  predicate Complete(s: Snapshot) {
    (s.status == Reported || s.status == CompleteStatus) && ItemsAllowed(s.items)
  }

  predicate CompleteRawUsage(s: Snapshot, sha: seq<byte> -> nat) {
    Complete(s) && s.raw != [] && s.hash != 0 && sha(s.raw) == s.hash
  }

  /** `valid` says which bytes are a JSON document; anything else cannot be encoded. */
  function Encode(s: Snapshot, valid: seq<byte> -> bool): Option<Stored> {
    if s.raw != [] && !valid(s.raw) then None
    else Some(Stored(s.status, Project(Outside, s.raw), s.raw, s.items, s.hash))
  }

  function Decode(d: Stored, valid: seq<byte> -> bool, sha: seq<byte> -> nat): Result<Snapshot, DecodeError> {
    if d.bytes != [] then
      if !valid(d.bytes) then Err(InvalidBytes)
      else if d.json != [] && Compact(Outside, d.json) != Project(Outside, d.bytes) then Err(Disagreement)
      else Ok(Snapshot(d.status, d.bytes, d.items, d.hash))
    else Ok(Snapshot(d.status, RestoreLegacy(d.json, d.hash, sha), d.items, d.hash))
  }

  /** Storing and loading gives back the provider's bytes exactly, although the readable copy was compacted and escaped. */
  lemma SnapshotRoundTrip(s: Snapshot, valid: seq<byte> -> bool, sha: seq<byte> -> nat)
    ensures match Encode(s, valid)
            case None => s.raw != [] && !valid(s.raw)
            case Some(d) =>
              && Decode(d, valid, sha) == Ok(s)
              && (CompleteRawUsage(s, sha) ==> CompleteRawUsage(Decode(d, valid, sha).value, sha))
  {
    ProjectionIsCompact(Outside, s.raw);
    if s.raw == [] { assert RestoreLegacy([], s.hash, sha) == []; }
  }

  /** A readable copy that was spaced out since, by pretty-printing say, still loads; any other difference is refused. */
  lemma ReformattedCopyLoads(s: Snapshot, json: seq<byte>, valid: seq<byte> -> bool, sha: seq<byte> -> nat)
    requires s.raw != [] && json != [] && Encode(s, valid).Some?
    ensures Decode(Encode(s, valid).value.(json := json), valid, sha)
              == if Compact(Outside, json) == Compact(Outside, Project(Outside, s.raw)) then Ok(s) else Err(Disagreement)
  {
    ProjectionIsCompact(Outside, s.raw);
  }

  // ---------- legacy rows without the byte copy ----------

  /** Leftmost, non-overlapping replacement of a six-byte pattern. */
  function ReplaceAll(b: seq<byte>, pattern: seq<byte>, to: seq<byte>): seq<byte>
    requires |pattern| == 6
    decreases |b|
  {
    if |b| < 6 then b
    else if b[..6] == pattern then to + ReplaceAll(b[6..], pattern, to)
    else [b[0]] + ReplaceAll(b[1..], pattern, to)
  }

  function Patterns(): (p: seq<(seq<byte>, seq<byte>)>)
    ensures |p| == 5 && forall i :: 0 <= i < 5 ==> |p[i].0| == 6
  {
    [(HtmlEscape(0x3c), [0x3c]), (HtmlEscape(0x3e), [0x3e]), (HtmlEscape(0x26), [0x26]),
     (SeparatorEscape(0xa8), [0xe2, 0x80, 0xa8]), (SeparatorEscape(0xa9), [0xe2, 0x80, 0xa9])]
  }

  function Unescape(b: seq<byte>, k: nat): seq<byte>
    requires k <= 5
  {
    if k == 0 then b else ReplaceAll(Unescape(b, k - 1), Patterns()[k - 1].0, Patterns()[k - 1].1)
  }

  function RestoreLegacy(raw: seq<byte>, expected: nat, sha: seq<byte> -> nat): seq<byte> {
    if raw == [] || expected == 0 || sha(raw) == expected then raw
    else if sha(Unescape(raw, 5)) == expected then Unescape(raw, 5)
    else raw
  }

  method RestoreHashVerified(raw: seq<byte>, expected: nat, sha: seq<byte> -> nat) returns (restored: seq<byte>)
    ensures restored == RestoreLegacy(raw, expected, sha)
    ensures restored != raw ==> sha(restored) == expected
  {
    if raw == [] || expected == 0 || sha(raw) == expected { return raw; }
    var replaced := raw;
    var k := 0;
    while k < 5
      invariant k <= 5 && replaced == Unescape(raw, k)
    {
      replaced := ReplaceAll(replaced, Patterns()[k].0, Patterns()[k].1);
      k := k + 1;
    }
    restored := if sha(replaced) == expected then replaced else raw;
  }

  /** Legacy bytes change only into bytes with the stored hash, so a snapshot without the byte copy is complete after loading
      exactly when its stored or its restored bytes have that hash. */
  lemma LegacyChangesOnlyIntoHash(d: Stored, valid: seq<byte> -> bool, sha: seq<byte> -> nat)
    requires d.bytes == []
    ensures Decode(d, valid, sha).Ok?
    ensures var s := Decode(d, valid, sha).value;
            && (s.raw != d.json ==> sha(s.raw) == d.hash)
            && (d.json != [] && d.hash != 0 && Complete(s) && s.raw != [] ==>
                  (CompleteRawUsage(s, sha) <==> sha(d.json) == d.hash || sha(Unescape(d.json, 5)) == d.hash))
  {
  }

  // ---------- what restoring recovers ----------

  /** Bytes without white space between tokens and without backslashes: the projection escapes them reversibly. */
  predicate Plain(b: seq<byte>) {
    forall i :: 0 <= i < |b| ==> b[i] != BACKSLASH
  }

  /** The projection when the first `k` escapes have been undone again. */
  function Partly(b: seq<byte>, k: nat): seq<byte> {
    if b == [] then []
    else if Html(b[0]) then (if HtmlIndex(b[0]) < k then [b[0]] else HtmlEscape(b[0])) + Partly(b[1..], k)
    else if Separator(b) then (if SeparatorIndex(b[2]) < k then b[..3] else SeparatorEscape(b[2])) + Partly(b[3..], k)
    else [b[0]] + Partly(b[1..], k)
  }

  function HtmlIndex(c: byte): nat {
    if c == 0x3c then 0 else if c == 0x3e then 1 else 2
  }

  function SeparatorIndex(third: byte): nat {
    if third == 0xa8 then 3 else 4
  }

  /** A pattern starts with a backslash, so replacing passes over a byte that is none. */
  lemma PassOver(b: seq<byte>, pattern: seq<byte>, to: seq<byte>)
    requires b != [] && |pattern| == 6 && pattern[0] == BACKSLASH && b[0] != BACKSLASH
    ensures ReplaceAll(b, pattern, to) == [b[0]] + ReplaceAll(b[1..], pattern, to)
  {
    if |b| >= 6 { assert b[..6][0] == b[0]; }
    if 1 <= |b| < 7 { assert |b[1..]| < 6; assert b == [b[0]] + b[1..]; }
  }

  lemma {:induction false} PassOverAll(prefix: seq<byte>, rest: seq<byte>, pattern: seq<byte>, to: seq<byte>)
    requires |pattern| == 6 && pattern[0] == BACKSLASH && forall i :: 0 <= i < |prefix| ==> prefix[i] != BACKSLASH
    ensures ReplaceAll(prefix + rest, pattern, to) == prefix + ReplaceAll(rest, pattern, to)
  {
    if prefix == [] {
      assert prefix + rest == rest;
    } else {
      PassOver(prefix + rest, pattern, to);
      assert (prefix + rest)[1..] == prefix[1..] + rest;
      PassOverAll(prefix[1..], rest, pattern, to);
      assert prefix == [prefix[0]] + prefix[1..];
    }
  }

  /** A six-byte escape is replaced if it is the pattern and passed over otherwise. */
  lemma PassEscape(e: seq<byte>, rest: seq<byte>, pattern: seq<byte>, to: seq<byte>)
    requires |e| == |pattern| == 6 && pattern[0] == BACKSLASH && e[0] == BACKSLASH && forall i :: 1 <= i < 6 ==> e[i] != BACKSLASH
    ensures ReplaceAll(e + rest, pattern, to) == (if e == pattern then to else e) + ReplaceAll(rest, pattern, to)
  {
    assert (e + rest)[..6] == e && (e + rest)[6..] == rest;
    if e != pattern {
      assert (e + rest)[1..] == e[1..] + rest;
      PassOverAll(e[1..], rest, pattern, to);
      assert e == [e[0]] + e[1..];
    }
  }

  lemma {:induction false} OneMoreUndone(b: seq<byte>, k: nat)
    requires k < 5 && Plain(b)
    ensures ReplaceAll(Partly(b, k), Patterns()[k].0, Patterns()[k].1) == Partly(b, k + 1)
    decreases |b|
  {
    var pattern, to := Patterns()[k].0, Patterns()[k].1;
    if b != [] {
      if Html(b[0]) {
        OneMoreUndone(b[1..], k);
        if HtmlIndex(b[0]) < k { PassOver(Partly(b, k), pattern, to); assert Partly(b, k)[1..] == Partly(b[1..], k); }
        else { PassEscape(HtmlEscape(b[0]), Partly(b[1..], k), pattern, to); }
      } else if Separator(b) {
        OneMoreUndone(b[3..], k);
        if SeparatorIndex(b[2]) < k { PassOverAll(b[..3], Partly(b[3..], k), pattern, to); }
        else { PassEscape(SeparatorEscape(b[2]), Partly(b[3..], k), pattern, to); assert b[..3] == [b[0], b[1], b[2]]; }
      } else {
        OneMoreUndone(b[1..], k);
        PassOver(Partly(b, k), pattern, to);
        assert Partly(b, k)[1..] == Partly(b[1..], k);
      }
    }
  }

  lemma {:induction false} AllUndone(b: seq<byte>)
    ensures Partly(b, 5) == b
    decreases |b|
  {
    if b != [] {
      if !Html(b[0]) && Separator(b) { AllUndone(b[3..]); assert b == b[..3] + b[3..]; }
      else { AllUndone(b[1..]); assert b == [b[0]] + b[1..]; }
    }
  }

  lemma {:induction false} ProjectionIsPartly(m: Scan, b: seq<byte>)
    requires Compact(m, b) == b
    ensures Project(m, b) == Partly(b, 0)
    decreases |b|
  {
    if b != [] {
      CompactTail(m, b);
      if !Html(b[0]) && Separator(b) {
        var m1 := Advance(m, b[0]);
        CompactTail(m1, b[1..]);
        CompactTail(Advance(m1, b[1]), b[1..][1..]);
        assert b[1..][1..][1..] == b[3..];
        ProjectionIsPartly(Advance(Advance(m1, b[1]), b[2]), b[3..]);
      } else {
        ProjectionIsPartly(Advance(m, b[0]), b[1..]);
      }
    }
  }

  lemma {:induction false} CompactLength(m: Scan, b: seq<byte>)
    ensures |Compact(m, b)| <= |b|
    decreases |b|
  {
    if b != [] { CompactLength(Advance(m, b[0]), b[1..]); }
  }

  lemma CompactTail(m: Scan, b: seq<byte>)
    requires b != [] && Compact(m, b) == b
    ensures !Dropped(m, b[0]) && Compact(Advance(m, b[0]), b[1..]) == b[1..]
  {
    CompactLength(Advance(m, b[0]), b[1..]);
    if !Dropped(m, b[0]) { assert Compact(m, b)[1..] == Compact(Advance(m, b[0]), b[1..]); }
  }

  lemma {:induction false} UndoneUpTo(original: seq<byte>, k: nat)
    requires k <= 5 && Plain(original) && Compact(Outside, original) == original
    ensures Unescape(Project(Outside, original), k) == Partly(original, k)
  {
    if k == 0 {
      ProjectionIsPartly(Outside, original);
    } else {
      UndoneUpTo(original, k - 1);
      OneMoreUndone(original, k - 1);
    }
  }

  /** A legacy row whose provider bytes were compact and free of backslashes is restored to exactly those bytes. */
  lemma LegacyRestoresCompactBytes(original: seq<byte>, sha: seq<byte> -> nat)
    requires Plain(original) && Compact(Outside, original) == original
    requires sha(original) != 0 && (sha(Project(Outside, original)) == sha(original) ==> Project(Outside, original) == original)
    ensures RestoreLegacy(Project(Outside, original), sha(original), sha) == original
  {
    UndoneUpTo(original, 5);
    AllUndone(original);
    if Project(Outside, original) == [] { assert Unescape([], 5) == original; ReplaceNothing(5); }
  }

  lemma {:induction false} ReplaceNothing(k: nat)
    requires k <= 5
    ensures Unescape([], k) == []
  {
    if k > 0 { ReplaceNothing(k - 1); }
  }

  // ---------- loading into a receiver ----------

  /** Loading assigns the whole snapshot or leaves the receiver as it was. */
  class Receiver {
    var value: Snapshot

    constructor (value: Snapshot)
      ensures this.value == value
    {
      this.value := value;
    }

    method UnmarshalJSON(d: Stored, valid: seq<byte> -> bool, sha: seq<byte> -> nat) returns (error: Option<DecodeError>)
      modifies this
      ensures match error
              case None => Decode(d, valid, sha) == Ok(value)
              case Some(e) => Decode(d, valid, sha) == Err(e) && value == old(value)
    {
      var raw := d.json;
      if d.bytes != [] {
        if !valid(d.bytes) { return Some(InvalidBytes); }
        if raw != [] && Compact(Outside, raw) != Project(Outside, d.bytes) { return Some(Disagreement); }
        raw := d.bytes;
      } else {
        raw := RestoreHashVerified(raw, d.hash, sha);
      }
      value := Snapshot(d.status, raw, d.items, d.hash);
      error := None;
    }
  }
}
