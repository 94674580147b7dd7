/** Heading paths of document blocks: a reused stack of open headings, and blocks that keep the path they were given. */
module HeadingStack {
  import opened Common

  type byte = x: int | 0 <= x < 256

  /** A text as the parsers hold it: its bytes. */
  type Text = seq<byte>

  datatype Format = Markdown | Docx

  /** A structural element of a document with its trimmed text; `valid` says whether the text is UTF-8. */
  datatype Item = Heading(level: nat, text: Text, valid: bool) | Body(text: Text, valid: bool)

  datatype Limits = Limits(maxParagraphs: nat, maxBlocks: nat, maxTextBytes: nat)

  datatype ParseError = LimitExceeded | InvalidEncoding | NoText

  /** Markdown opens every heading, DOCX only those with text. */
  predicate Opens(format: Format, item: Item) {
    item.Heading? && (format == Docx ==> item.text != [])
  }

  predicate Levelled(items: seq<Item>) {
    forall i :: 0 <= i < |items| && items[i].Heading? ==> items[i].level >= 1
  }

  // ---------- the stack as the loops build it ----------

  function Padded(stack: seq<Text>, n: nat): (r: seq<Text>)
    ensures |r| == if |stack| >= n then |stack| else n
    ensures forall i :: 0 <= i < |r| ==> r[i] == if i < |stack| then stack[i] else []
    decreases n - |stack|
  {
    if |stack| >= n then stack else Padded(stack + [[]], n)
  }

  function Push(stack: seq<Text>, level: nat, text: Text): seq<Text>
    requires level >= 1
  {
    Padded(if |stack| >= level then stack[..level - 1] else stack, level - 1) + [text]
  }

  function StackAfter(format: Format, items: seq<Item>): seq<Text>
    requires Levelled(items)
  {
    if items == [] then []
    else
      var before := StackAfter(format, items[..|items| - 1]);
      var item := items[|items| - 1];
      if Opens(format, item) then Push(before, item.level, item.text) else before
  }

  function Compact(stack: seq<Text>): seq<Text> {
    if stack == [] then []
    else Compact(stack[..|stack| - 1]) + if stack[|stack| - 1] != [] then [stack[|stack| - 1]] else []
  }

  /** A path lists the headings that are not empty, in order: one by one, and level by level. */
  lemma {:induction false} CompactConcat(a: seq<Text>, b: seq<Text>)
    ensures Compact(a + b) == Compact(a) + Compact(b)
    decreases |b|
  {
    if b == [] {
      assert a + b == a;
    } else {
      assert (a + b)[..|a + b| - 1] == a + b[..|b| - 1];
      CompactConcat(a, b[..|b| - 1]);
    }
  }

  lemma CompactOne(text: Text)
    ensures Compact([text]) == if text == [] then [] else [text]
  {
    assert [text][..0] == [];
  }

  /** A heading without text closes the deeper ones in Markdown and is passed over in DOCX; any other opens its level in both. */
  lemma HeadingOpens(format: Format, items: seq<Item>, level: nat, text: Text, valid: bool)
    requires Levelled(items) && level >= 1 && Levelled(items + [Heading(level, text, valid)])
    ensures var before, after := StackAfter(format, items), StackAfter(format, items + [Heading(level, text, valid)]);
            if text == [] && format == Docx then after == before
            else
              && |after| == level && after[level - 1] == text
              && (forall i :: 0 <= i < level - 1 ==> after[i] == if i < |before| then before[i] else [])
    ensures forall v: bool, t: Text :: Levelled(items + [Body(t, v)]) ==>
              StackAfter(format, items + [Body(t, v)]) == StackAfter(format, items)
  {
    var next := items + [Heading(level, text, valid)];
    assert next[..|next| - 1] == items;
    forall v: bool, t: Text | Levelled(items + [Body(t, v)])
      ensures StackAfter(format, items + [Body(t, v)]) == StackAfter(format, items)
    {
      assert (items + [Body(t, v)])[..|items|] == items;
    }
  }

  // ---------- what an open heading is, without a stack ----------

  /** Going back from the end, the first opened heading of at most level `i`: its text if it is of level `i`, nothing if a
      shallower one closed that level. */
  function OpenHeading(format: Format, items: seq<Item>, i: nat): Text {
    if items == [] then []
    else
      var item := items[|items| - 1];
      if !Opens(format, item) || item.level > i then OpenHeading(format, items[..|items| - 1], i)
      else if item.level == i then item.text
      else []
  }

  function CurrentLevel(format: Format, items: seq<Item>): nat {
    if items == [] then 0
    else if Opens(format, items[|items| - 1]) then items[|items| - 1].level
    else CurrentLevel(format, items[..|items| - 1])
  }

  /** After any items the stack is as deep as the last opened heading, and each slot is the heading of that level that is
      still open. */
  lemma {:induction false} StackHoldsOpenHeadings(format: Format, items: seq<Item>)
    requires Levelled(items)
    ensures var stack := StackAfter(format, items);
            |stack| == CurrentLevel(format, items) && forall i :: 1 <= i <= |stack| ==> stack[i - 1] == OpenHeading(format, items, i)
    ensures forall i :: i > CurrentLevel(format, items) ==> OpenHeading(format, items, i) == []
  {
    if items != [] { StackHoldsOpenHeadings(format, items[..|items| - 1]); }
  }

  // ---------- the blocks a document should yield ----------

  datatype Expected = Expected(text: Text, path: seq<Text>)

  function Emitted(format: Format, items: seq<Item>): seq<Expected>
    requires Levelled(items)
  {
    if items == [] then []
    else
      var item := items[|items| - 1];
      Emitted(format, items[..|items| - 1]) + if item.text == [] then [] else [Expected(item.text, Compact(StackAfter(format, items)))]
  }

  function TextBytes(blocks: seq<Expected>): nat {
    if blocks == [] then 0 else TextBytes(blocks[..|blocks| - 1]) + |blocks[|blocks| - 1].text|
  }

  /** Everything within the limits and readable, so far. */
  predicate Within(format: Format, items: seq<Item>, limits: Limits)
    requires Levelled(items)
  {
    && |items| <= limits.maxParagraphs
    && |Emitted(format, items)| <= limits.maxBlocks
    && TextBytes(Emitted(format, items)) <= limits.maxTextBytes
    && forall i :: 0 <= i < |items| && items[i].text != [] ==> items[i].valid
  }

  /** One more item emits its text, with the headings open at that point, unless it has none. */
  lemma EmitStep(format: Format, items: seq<Item>)
    requires Levelled(items) && items != []
    ensures var before, after, item := Emitted(format, items[..|items| - 1]), Emitted(format, items), items[|items| - 1];
            if item.text == [] then after == before
            else && after == before + [Expected(item.text, Compact(StackAfter(format, items)))]
                 && TextBytes(after) == TextBytes(before) + |item.text|
  {
    var before, after := Emitted(format, items[..|items| - 1]), Emitted(format, items);
    if items[|items| - 1].text != [] { assert after[..|after| - 1] == before; }
  }

  /** An item with text yields the block at its place among those before it, under the headings open at it. */
  lemma {:induction false} EmittedAt(format: Format, items: seq<Item>, i: nat)
    requires Levelled(items) && i < |items| && items[i].text != []
    ensures var k := |Emitted(format, items[..i])|;
            && k < |Emitted(format, items)|
            && Emitted(format, items)[k] == Expected(items[i].text, Compact(StackAfter(format, items[..i + 1])))
    decreases |items|
  {
    EmitStep(format, items);
    var front := items[..|items| - 1];
    if i < |front| {
      assert front[..i] == items[..i] && front[..i + 1] == items[..i + 1] && front[i] == items[i];
      EmittedAt(format, front, i);
      var k := |Emitted(format, items[..i])|;
      assert k < |Emitted(format, front)| && Emitted(format, items)[k] == Emitted(format, front)[k];
    } else {
      assert items[..i + 1] == items && items[..i] == front;
    }
  }

  /** And there is no other block. */
  lemma {:induction false} EmittedFrom(format: Format, items: seq<Item>, k: nat) returns (i: nat)
    requires Levelled(items) && k < |Emitted(format, items)|
    ensures i < |items| && items[i].text != [] && |Emitted(format, items[..i])| == k
    decreases |items|
  {
    var front := items[..|items| - 1];
    if k < |Emitted(format, front)| {
      i := EmittedFrom(format, front, k);
      assert front[..i] == items[..i] && items[i] == front[i];
    } else {
      EmitStep(format, items);
      i := |front|;
      assert items[..i] == front;
    }
  }

  lemma {:induction false} WithinPrefix(format: Format, items: seq<Item>, limits: Limits, k: nat)
    requires Levelled(items) && k <= |items| && Within(format, items, limits)
    ensures Within(format, items[..k], limits)
    decreases |items|
  {
    if k < |items| {
      var shorter := items[..|items| - 1];
      EmitStep(format, items);
      WithinPrefix(format, shorter, limits, k);
      assert shorter[..k] == items[..k];
    } else {
      assert items[..k] == items;
    }
  }

  // ---------- the slice of open headings ----------

  /** A growing slice: its backing array is reused when headings close and replaced when it is full. */
  class Headings {
    var slots: array<Text>
    var count: nat

    ghost predicate Valid()
      reads this
    {
      count <= slots.Length
    }

    ghost function Contents(): seq<Text>
      reads this, slots
      requires Valid()
    {
      slots[..count]
    }

    constructor ()
      ensures Valid() && Contents() == [] && fresh(slots)
    {
      slots, count := new Text[6], 0;
    }

    method Append(text: Text)
      requires Valid()
      modifies this, slots
      ensures Valid() && Contents() == old(Contents()) + [text]
      ensures slots == old(slots) || fresh(slots)
    {
      if count == slots.Length {
        var grown := new Text[2 * count + 1];
        var i := 0;
        while i < count
          invariant i <= count == old(count) && slots == old(slots) && fresh(grown) && grown.Length == 2 * count + 1
          invariant grown[..i] == old(slots[..count])[..i] && slots[..count] == old(slots[..count])
          modifies grown
        {
          grown[i] := slots[i];
          i := i + 1;
        }
        slots := grown;
      }
      slots[count] := text;
      count := count + 1;
    }

    method Open(level: nat, text: Text)
      requires Valid() && level >= 1
      modifies this, slots
      ensures Valid() && Contents() == Push(old(Contents()), level, text)
      ensures slots == old(slots) || fresh(slots)
    {
      if count >= level { count := level - 1; }
      ghost var kept := Contents();
      while count < level - 1
        invariant Valid() && Padded(Contents(), level - 1) == Padded(kept, level - 1)
        invariant |kept| <= level - 1 && count <= level - 1
        invariant slots == old(slots) || fresh(slots)
        decreases level - 1 - count
      {
        Append([]);
      }
      Append(text);
    }

    /** The non-empty headings, copied into an array of their own. */
    method CompactPath() returns (path: array<Text>)
      requires Valid()
      ensures fresh(path) && path[..] == Compact(Contents())
    {
      var result: seq<Text> := [];
      var i := 0;
      while i < count
        invariant i <= count && result == Compact(slots[..i])
      {
        assert slots[..i + 1][..i] == slots[..i];
        if slots[i] != [] { result := result + [slots[i]]; }
        i := i + 1;
      }
      path := new Text[|result|](k requires 0 <= k < |result| => result[k]);
      assert path[..] == result;
    }
  }

  /** A block refers to its heading path by reference, as a slice does. */
  datatype Block = Block(ordinal: nat, text: Text, path: array<Text>)

  /** Collects blocks; `Repr` holds the arrays of their paths, which nobody else writes to. */
  class BlockCollector {
    const limits: Limits
    var blocks: seq<Block>
    var textBytes: nat
    ghost var collected: seq<Expected>
    ghost var Repr: set<object>

    ghost predicate Valid()
      reads this, Repr
    {
      && this in Repr && |blocks| == |collected| && textBytes == TextBytes(collected)
      && forall k :: 0 <= k < |blocks| ==>
           && blocks[k].path in Repr && blocks[k].path[..] == collected[k].path
           && blocks[k].ordinal == k && blocks[k].text == collected[k].text
    }

    constructor (limits: Limits)
      ensures Valid() && fresh(Repr) && this.limits == limits && collected == []
    {
      this.limits := limits;
      blocks, textBytes, collected := [], 0, [];
      Repr := {this};
    }

    /** Adds a block with a copy of the path; empty text adds nothing. */
    method Add(text: Text, valid: bool, path: array<Text>) returns (error: Option<ParseError>)
      requires Valid() && path !in Repr
      modifies this
      ensures error.None? <==> text == [] || (valid && |old(blocks)| < limits.maxBlocks && old(textBytes) + |text| <= limits.maxTextBytes)
      ensures error != Some(NoText) && (error.None? ==> Valid() && fresh(Repr - old(Repr)))
      ensures error.None? ==> collected == if text == [] then old(collected) else old(collected) + [Expected(text, path[..])]
    {
      if text == [] { return None; }
      if !valid { return Some(InvalidEncoding); }
      if |blocks| >= limits.maxBlocks { return Some(LimitExceeded); }
      textBytes := textBytes + |text|;
      if textBytes > limits.maxTextBytes { return Some(LimitExceeded); }
      var copied := new Text[path.Length](k requires 0 <= k < path.Length reads path => path[k]);
      assert copied[..] == path[..];
      blocks := blocks + [Block(|blocks|, text, copied)];
      ghost var one := Expected(text, path[..]);
      assert (collected + [one])[..|collected|] == collected;
      collected := collected + [one];
      Repr := Repr + {copied};
      error := None;
    }
  }

  /** What one more item does to the stack, the blocks and the limits. */
  lemma NextItem(format: Format, done: seq<Item>, item: Item, limits: Limits)
    requires Levelled(done + [item]) && Levelled(done) && Within(format, done, limits)
    ensures var next := done + [item];
            && (item.Heading? ==> item.level >= 1)
            && StackAfter(format, next) == (if Opens(format, item) then Push(StackAfter(format, done), item.level, item.text)
                                            else StackAfter(format, done))
            && Emitted(format, next) == (if item.text == [] then Emitted(format, done)
                                         else Emitted(format, done) + [Expected(item.text, Compact(StackAfter(format, next)))])
            && (Within(format, next, limits) <==>
                  |done| < limits.maxParagraphs
                  && (item.text == [] || (item.valid && |Emitted(format, done)| < limits.maxBlocks
                                          && TextBytes(Emitted(format, done)) + |item.text| <= limits.maxTextBytes)))
  {
    var next := done + [item];
    assert next[..|next| - 1] == done && next[|done|] == item;
    EmitStep(format, next);
  }

  ghost predicate Ready(headings: Headings, collector: BlockCollector)
    reads headings, collector, collector.Repr
  {
    headings.Valid() && collector.Valid() && headings !in collector.Repr && headings.slots !in collector.Repr
  }

  /** The text of an item, under the headings that are open now. */
  method TakeText(headings: Headings, collector: BlockCollector, item: Item) returns (error: Option<ParseError>)
    requires Ready(headings, collector)
    modifies collector
    ensures error.None? <==> item.text == [] || (item.valid && |old(collector.collected)| < collector.limits.maxBlocks
                                                 && TextBytes(old(collector.collected)) + |item.text| <= collector.limits.maxTextBytes)
    ensures error != Some(NoText)
    ensures error.None? ==> Ready(headings, collector) && fresh(collector.Repr - old(collector.Repr))
    ensures error.None? ==> collector.collected == if item.text == [] then old(collector.collected)
                                                   else old(collector.collected) + [Expected(item.text, Compact(headings.Contents()))]
  {
    var path := headings.CompactPath();
    error := collector.Add(item.text, item.valid, path);
  }

  /** One item: headings first, then its text under the headings that are open now. */
  method TakeItem(format: Format, headings: Headings, collector: BlockCollector, item: Item) returns (error: Option<ParseError>)
    requires Ready(headings, collector) && (item.Heading? ==> item.level >= 1)
    modifies headings, headings.slots, collector
    ensures error.None? <==> item.text == [] || (item.valid && |old(collector.collected)| < collector.limits.maxBlocks
                                                 && TextBytes(old(collector.collected)) + |item.text| <= collector.limits.maxTextBytes)
    ensures error != Some(NoText) && (error.None? ==> Ready(headings, collector))
    ensures error.None? ==> headings.Contents() == if Opens(format, item) then Push(old(headings.Contents()), item.level, item.text)
                                                   else old(headings.Contents())
    ensures error.None? ==> collector.collected == if item.text == [] then old(collector.collected)
                                                   else old(collector.collected) + [Expected(item.text, Compact(headings.Contents()))]
    ensures error.None? ==> fresh(collector.Repr - old(collector.Repr)) && (headings.slots == old(headings.slots) || fresh(headings.slots))
  {
    if Opens(format, item) { headings.Open(item.level, item.text); }
    error := TakeText(headings, collector, item);
  }

  /** The slice of headings and the collector are what the items so far ask for. */
  ghost predicate Parsed(format: Format, done: seq<Item>, headings: Headings, collector: BlockCollector)
    reads headings, headings.slots, collector, collector.Repr
  {
    && Levelled(done) && Ready(headings, collector) && headings.Contents() == StackAfter(format, done)
    && collector.collected == Emitted(format, done) && Within(format, done, collector.limits)
  }

  /** One turn of the parsing loop: it goes on while everything up to the item is within the limits, and
      stops only when the whole document is not. */
  method TakeNext(format: Format, items: seq<Item>, n: nat, headings: Headings, collector: BlockCollector)
    returns (error: Option<ParseError>)
    requires Levelled(items) && n < |items| && Parsed(format, items[..n], headings, collector)
    modifies headings, headings.slots, collector
    ensures error.Some? ==> !Within(format, items, collector.limits) && error != Some(NoText)
    ensures error.None? ==> Parsed(format, items[..n + 1], headings, collector)
    ensures error.None? ==> fresh(collector.Repr - old(collector.Repr)) && (headings.slots == old(headings.slots) || fresh(headings.slots))
  {
    ghost var done := items[..n];
    assert items[..n + 1] == done + [items[n]];
    NextItem(format, done, items[n], collector.limits);
    if n + 1 > collector.limits.maxParagraphs {
      RefusedPrefix(format, items, collector.limits, n + 1);
      return Some(LimitExceeded);
    }
    error := TakeItem(format, headings, collector, items[n]);
    if error.Some? { RefusedPrefix(format, items, collector.limits, n + 1); }
  }

  /** The parsing loop. It succeeds exactly when some text was found and everything stayed within the limits; the blocks then
      are numbered from 0 and carry the headings that were open where they stood, although the slice of headings has been
      truncated and overwritten since. */
  method ParseItems(format: Format, items: seq<Item>, limits: Limits) returns (result: Result<seq<Block>, ParseError>)
    requires Levelled(items)
    ensures result.Ok? <==> Emitted(format, items) != [] && Within(format, items, limits)
    ensures result == Err(NoText) <==> Emitted(format, items) == [] && Within(format, items, limits)
    ensures result.Ok? ==>
              && |result.value| == |Emitted(format, items)|
              && forall k :: 0 <= k < |result.value| ==>
                   && result.value[k].ordinal == k && result.value[k].text == Emitted(format, items)[k].text
                   && result.value[k].path[..] == Emitted(format, items)[k].path
  {
    var collector, error := CollectItems(format, items, limits);
    if error.Some? { return Err(error.value); }
    if collector.blocks == [] { return Err(NoText); }
    result := Ok(collector.blocks);
  }

  method CollectItems(format: Format, items: seq<Item>, limits: Limits) returns (collector: BlockCollector, error: Option<ParseError>)
    requires Levelled(items)
    ensures (error.None? <==> Within(format, items, limits)) && error != Some(NoText)
    ensures error.None? ==> collector.Valid() && collector.collected == Emitted(format, items)
  {
    error := None;
    var headings := new Headings();
    collector := new BlockCollector(limits);
    var n := 0;
    while n < |items|
      invariant n <= |items| && collector.limits == limits && error.None?
      invariant fresh(headings) && fresh(headings.slots) && fresh(collector) && fresh(collector.Repr)
      invariant Parsed(format, items[..n], headings, collector)
    {
      error := TakeNext(format, items, n, headings, collector);
      if error.Some? { return; }
      n := n + 1;
    }
    assert items[..n] == items;
  }

  lemma RefusedPrefix(format: Format, items: seq<Item>, limits: Limits, k: nat)
    requires Levelled(items) && k <= |items| && !Within(format, items[..k], limits)
    ensures !Within(format, items, limits)
  {
    if Within(format, items, limits) { WithinPrefix(format, items, limits, k); }
  }
}
