/** Formatting spans count code points, Telegram counts UTF-16 units (RFC 2781): conversion and its inverse. */
module Utf16 {
  import opened Base

  // A Unicode scalar value: any code point but the surrogates.
  type CodePoint = c: int | 0 <= c < 0x11_0000 && !(0xD800 <= c < 0xE000) witness 0

  type Text = seq<CodePoint>

  // A piece of text to emphasise, in code points; an entity is the same in UTF-16 units.
  datatype Span = Span(offset: int, length: int)

  // ---------------------------------------------------------------- UTF-16, little-endian

  /** Section 2.1 of RFC 2781. */
  function Units(c: CodePoint): (units: seq<nat>)
    ensures 1 <= |units| <= 2
    ensures forall i :: 0 <= i < |units| ==> units[i] < 0x1_0000
  {
    if c < 0x1_0000 then [c]
    else
      var rest := c - 0x1_0000;
      [0xD800 + rest / 0x400, 0xDC00 + rest % 0x400]
  }

  function UnitBytes(unit: nat): seq<Byte>
    requires unit < 0x1_0000
  {
    [(unit % 256) as Byte, (unit / 256) as Byte]
  }

  function CharBytes(c: CodePoint): seq<Byte> {
    if |Units(c)| == 1 then UnitBytes(Units(c)[0]) else UnitBytes(Units(c)[0]) + UnitBytes(Units(c)[1])
  }

  function Encode(text: Text): seq<Byte> {
    if text == [] then [] else CharBytes(text[0]) + Encode(text[1..])
  }

  predicate High(unit: int) {
    0xD800 <= unit < 0xDC00
  }

  predicate Low(unit: int) {
    0xDC00 <= unit < 0xE000
  }

  function UnitAt(bytes: seq<Byte>): (unit: nat)
    requires |bytes| >= 2
    ensures unit < 0x1_0000
  {
    bytes[0] as nat + 256 * bytes[1] as nat
  }

  /** Section 2.2 of RFC 2781; unpaired surrogates and an odd last byte are ignored. */
  function Decode(bytes: seq<Byte>): Text {
    if |bytes| < 2 then []
    else if High(UnitAt(bytes)) then
      if |bytes| >= 4 && Low(UnitAt(bytes[2..]))
      then [0x1_0000 + (UnitAt(bytes) - 0xD800) * 0x400 + (UnitAt(bytes[2..]) - 0xDC00)] + Decode(bytes[4..])
      else Decode(bytes[2..])
    else if Low(UnitAt(bytes)) then Decode(bytes[2..])
    else [UnitAt(bytes)] + Decode(bytes[2..])
  }

  lemma UnitReadsBack(unit: nat, rest: seq<Byte>)
    requires unit < 0x1_0000
    ensures UnitAt(UnitBytes(unit) + rest) == unit && (UnitBytes(unit) + rest)[2..] == rest
  {}

  lemma CharReadsBack(c: CodePoint, rest: seq<Byte>)
    ensures Decode(CharBytes(c) + rest) == [c] + Decode(rest)
  {
    var units := Units(c);
    if c < 0x1_0000 {
      UnitReadsBack(c, rest);
    } else {
      var all := CharBytes(c) + rest;
      assert all == UnitBytes(units[0]) + (UnitBytes(units[1]) + rest);
      UnitReadsBack(units[0], UnitBytes(units[1]) + rest);
      UnitReadsBack(units[1], rest);
      assert all[4..] == rest;
    }
  }

  lemma {:induction false} DecodeEncode(text: Text)
    ensures Decode(Encode(text)) == text
  {
    if text != [] {
      CharReadsBack(text[0], Encode(text[1..]));
      DecodeEncode(text[1..]);
    }
  }

  lemma {:induction false} EncodeConcat(a: Text, b: Text)
    ensures Encode(a + b) == Encode(a) + Encode(b)
  {
    if a == [] {
      assert a + b == b;
    } else {
      assert (a + b)[1..] == a[1..] + b;
      EncodeConcat(a[1..], b);
    }
  }

  /** Two bytes a unit, and at least one unit a character. */
  lemma {:induction false} EncodedLength(text: Text)
    ensures |Encode(text)| % 2 == 0 && |Encode(text)| >= 2 * |text|
  {
    if text != [] {
      EncodedLength(text[1..]);
    }
  }

  // ---------------------------------------------------------------- entities

  predicate ValidSpan(text: Text, span: Span) {
    0 <= span.offset && 0 < span.length && span.offset + span.length <= |text|
  }

  function Length16(text: Text): nat {
    |Encode(text)| / 2
  }

  function EntityOf(text: Text, span: Span): Span
    requires ValidSpan(text, span)
  {
    Span(Length16(text[..span.offset]), Length16(text[span.offset..span.offset + span.length]))
  }

  /** Python's slice of non-negative bounds. */
  function Slice(bytes: seq<Byte>, from: nat, to: nat): seq<Byte> {
    if to <= from || |bytes| <= from then [] else if to <= |bytes| then bytes[from..to] else bytes[from..]
  }

  /** The text an entity of a received message covers. */
  function EntityText(text: Text, offset: nat, length: nat): Text {
    Decode(Slice(Encode(text), offset * 2, (offset + length) * 2))
  }

  lemma EntityBounds(text: Text, span: Span)
    requires ValidSpan(text, span)
    ensures Encode(text) == Encode(text[..span.offset]) + Encode(text[span.offset..span.offset + span.length]) +
                            Encode(text[span.offset + span.length..])
    ensures EntityOf(text, span).offset * 2 == |Encode(text[..span.offset])|
    ensures EntityOf(text, span).length * 2 == |Encode(text[span.offset..span.offset + span.length])|
    ensures EntityOf(text, span).length > 0
  {
    var a, b, c := text[..span.offset], text[span.offset..span.offset + span.length], text[span.offset + span.length..];
    assert text == a + b + c;
    EncodeConcat(a + b, c);
    EncodeConcat(a, b);
    EncodedLength(a);
    EncodedLength(b);
  }

  /** The entity of a span covers exactly the span's text. */
  lemma EntityCoversSpan(text: Text, span: Span)
    requires ValidSpan(text, span)
    ensures EntityText(text, EntityOf(text, span).offset, EntityOf(text, span).length)
         == text[span.offset..span.offset + span.length]
  {
    var entity := EntityOf(text, span);
    EntityBounds(text, span);
    assert Slice(Encode(text), entity.offset * 2, (entity.offset + entity.length) * 2)
        == Encode(text[span.offset..span.offset + span.length]);
    DecodeEncode(text[span.offset..span.offset + span.length]);
  }

  /** Unit positions grow strictly with code-point positions. */
  lemma Length16Grows(text: Text, i: nat, j: nat)
    requires i <= j <= |text|
    ensures Length16(text[..j]) == Length16(text[..i]) + Length16(text[i..j])
    ensures i < j ==> Length16(text[..i]) < Length16(text[..j])
  {
    assert text[..j] == text[..i] + text[i..j];
    EncodeConcat(text[..i], text[i..j]);
    EncodedLength(text[..i]);
    EncodedLength(text[i..j]);
  }

  predicate EndsBefore(a: Span, b: Span) {
    a.offset + a.length <= b.offset
  }

  /** Entities keep the order and the disjointness of their spans, in both directions. */
  lemma EntitiesKeepOrder(text: Text, a: Span, b: Span)
    requires ValidSpan(text, a) && ValidSpan(text, b)
    ensures EndsBefore(EntityOf(text, a), EntityOf(text, b)) <==> EndsBefore(a, b)
    ensures EntityOf(text, a).offset < EntityOf(text, b).offset <==> a.offset < b.offset
    ensures EntityOf(text, a) == EntityOf(text, b) <==> a == b
  {
    EndOf(text, a);
    EndOf(text, b);
    Ordered(text, a.offset + a.length, b.offset);
    Ordered(text, a.offset, b.offset);
    Ordered(text, a.offset + a.length, b.offset + b.length);
  }

  lemma EndOf(text: Text, span: Span)
    requires ValidSpan(text, span)
    ensures EntityOf(text, span).offset + EntityOf(text, span).length == Length16(text[..span.offset + span.length])
  {
    Length16Grows(text, span.offset, span.offset + span.length);
  }

  lemma Ordered(text: Text, i: nat, j: nat)
    requires i <= |text| && j <= |text|
    ensures Length16(text[..i]) < Length16(text[..j]) <==> i < j
    ensures Length16(text[..i]) == Length16(text[..j]) <==> i == j
  {
    if i <= j { Length16Grows(text, i, j); } else { Length16Grows(text, j, i); }
  }

  /** The entities of all spans; nothing when a span is not inside the text. */
  method FormattingEntities(text: Text, spans: seq<Span>) returns (entities: Option<seq<Span>>)
    ensures entities.Some? <==> forall i :: 0 <= i < |spans| ==> ValidSpan(text, spans[i])
    ensures entities.Some? ==> |entities.value| == |spans|
    ensures entities.Some? ==> forall i :: 0 <= i < |spans| ==>
      entities.value[i].offset >= 0 && entities.value[i].length > 0 &&
      EntityText(text, entities.value[i].offset, entities.value[i].length)
        == text[spans[i].offset..spans[i].offset + spans[i].length]
    ensures entities.Some? ==> forall i, j :: 0 <= i < |spans| && 0 <= j < |spans| ==>
      (EndsBefore(entities.value[i], entities.value[j]) <==> EndsBefore(spans[i], spans[j]))
  {
    var converted: seq<Span> := [];
    for n := 0 to |spans|
      invariant |converted| == n
      invariant forall i :: 0 <= i < n ==> ValidSpan(text, spans[i]) && converted[i] == EntityOf(text, spans[i])
    {
      var span := spans[n];
      if span.offset < 0 || span.length <= 0 || span.offset + span.length > |text| {
        return None;
      }
      var offset := |Encode(text[..span.offset])| / 2;
      var length := |Encode(text[span.offset..span.offset + span.length])| / 2;
      converted := converted + [Span(offset, length)];
    }
    forall i | 0 <= i < |spans|
      ensures converted[i].length > 0
      ensures EntityText(text, converted[i].offset,
        converted[i].length) == text[spans[i].offset..spans[i].offset + spans[i].length]
    {
      EntityBounds(text, spans[i]);
      EntityCoversSpan(text, spans[i]);
    }
    forall i, j | 0 <= i < |spans| && 0 <= j < |spans|
      ensures EndsBefore(converted[i], converted[j]) <==> EndsBefore(spans[i], spans[j])
    {
      EntitiesKeepOrder(text, spans[i], spans[j]);
    }
    entities := Some(converted);
  }

  // ---------------------------------------------------------------- emphasis

  predicate Occurs(text: Text, fragment: Text, at: nat) {
    at + |fragment| <= |text| && text[at..at + |fragment|] == fragment
  }

  /** `str.index`: the first occurrence not before `from`. */
  method Index(text: Text, fragment: Text, from: nat) returns (at: Option<nat>)
    ensures at.Some? ==> from <= at.value && Occurs(text, fragment, at.value)
    ensures at.Some? ==> forall i: nat :: from <= i < at.value ==> !Occurs(text, fragment, i)
    ensures at.None? ==> forall i: nat :: from <= i ==> !Occurs(text, fragment, i)
  {
    var i := from;
    while i + |fragment| <= |text|
      invariant from <= i
      invariant forall j: nat :: from <= j < i ==> !Occurs(text, fragment, j)
      decreases |text| - i
    {
      if text[i..i + |fragment|] == fragment {
        return Some(i);
      }
      i := i + 1;
    }
    at := None;
  }

  ghost predicate Placed(text: Text, fragments: seq<Text>, at: seq<nat>, i: nat)
    requires i < |at| <= |fragments|
  {
    SearchFrom(fragments, at, i) <= at[i] && Occurs(text, fragments[i], at[i])
  }

  /** The first fragments found one after the other, none overlapping the one before. */
  ghost predicate Places(text: Text, fragments: seq<Text>, at: seq<nat>) {
    |at| <= |fragments| &&
    forall i :: 0 <= i < |at| ==> Placed(text, fragments, at, i)
  }

  ghost predicate PlacesAll(text: Text, fragments: seq<Text>, at: seq<nat>) {
    |at| == |fragments| && Places(text, fragments, at)
  }

  ghost predicate Absent(text: Text, fragment: Text, from: nat, to: nat) {
    forall p: nat :: from <= p < to ==> !Occurs(text, fragment, p)
  }

  /** Where the search for the n-th fragment starts. */
  function SearchFrom(fragments: seq<Text>, found: seq<nat>, n: nat): nat
    requires n <= |found| && n <= |fragments|
  {
    if n == 0 then 0 else found[n - 1] + |fragments[n - 1]|
  }

  ghost predicate FoundFirst(text: Text, fragments: seq<Text>, found: seq<nat>, i: nat)
    requires i < |found| <= |fragments|
  {
    Absent(text, fragments[i], SearchFrom(fragments, found, i), found[i])
  }

  ghost predicate Greedy(text: Text, fragments: seq<Text>, found: seq<nat>) {
    |found| <= |fragments| &&
    forall i :: 0 <= i < |found| ==> FoundFirst(text, fragments, found, i)
  }

  /** Searching greedily from the end of the last find loses nothing: however far it got, every placement of
      the fragments has the rest at or behind the search position. */
  lemma {:induction false} GreedyIsEarliest(text: Text, fragments: seq<Text>, found: seq<nat>, at: seq<nat>, n: nat)
    requires n <= |found| && Greedy(text, fragments, found) && PlacesAll(text, fragments, at)
    ensures SearchFrom(fragments, found, n) <= SearchFrom(fragments, at, n)
  {
    if n > 0 {
      GreedyIsEarliest(text, fragments, found, at, n - 1);
      assert FoundFirst(text, fragments, found, n - 1) && Placed(text, fragments, at, n - 1);
    }
  }

  /** So a placement of all fragments puts the next one where the greedy search looks for it. */
  lemma NextIsAhead(text: Text, fragments: seq<Text>, found: seq<nat>, at: seq<nat>)
    requires |found| < |fragments| && Greedy(text, fragments, found) && PlacesAll(text, fragments, at)
    ensures SearchFrom(fragments, found, |found|) <= at[|found|] && Occurs(text, fragments[|found|], at[|found|])
  {
    GreedyIsEarliest(text, fragments, found, at, |found|);
    assert Placed(text, fragments, at, |found|);
  }

  lemma SearchFromPrefix(fragments: seq<Text>, found: seq<nat>, offset: nat, i: nat)
    requires i <= |found| <= |fragments|
    ensures SearchFrom(fragments, found + [offset], i) == SearchFrom(fragments, found, i)
  {}

  lemma OneMore(text: Text, fragments: seq<Text>, found: seq<nat>, offset: nat)
    requires |found| < |fragments| && Places(text, fragments, found) && Greedy(text, fragments, found)
    requires SearchFrom(fragments, found, |found|) <= offset && Occurs(text, fragments[|found|], offset)
    requires Absent(text, fragments[|found|], SearchFrom(fragments, found, |found|), offset)
    ensures Places(text, fragments, found + [offset]) && Greedy(text, fragments, found + [offset])
  {
    var more := found + [offset];
    forall i | 0 <= i < |more| ensures Placed(text, fragments, more, i) && FoundFirst(text, fragments, more, i) {
      SearchFromPrefix(fragments, found, offset, i);
      assert i < |found| ==> Placed(text, fragments, found, i) && FoundFirst(text, fragments, found, i);
    }
  }

  lemma {:induction false} PlacedInOrder(text: Text, fragments: seq<Text>, at: seq<nat>, i: nat, j: nat)
    requires Places(text, fragments, at) && i < j < |at|
    ensures at[i] + |fragments[i]| <= at[j]
    decreases j
  {
    assert Placed(text, fragments, at, j);
    if i < j - 1 {
      PlacedInOrder(text, fragments, at, i, j - 1);
    }
  }

  /** Spans over the fragments, or nothing when they do not appear in this order. */
  method Emphasized(text: Text, fragments: seq<Text>) returns (spans: Option<seq<Span>>)
    ensures spans.Some? <==> exists at :: PlacesAll(text, fragments, at)
    ensures spans.Some? ==> |spans.value| == |fragments|
    ensures spans.Some? ==> forall i :: 0 <= i < |fragments| ==>
      0 <= spans.value[i].offset && spans.value[i].length == |fragments[i]| &&
      Occurs(text, fragments[i], spans.value[i].offset)
    ensures spans.Some? ==> forall i, j :: 0 <= i < j < |fragments| ==> EndsBefore(spans.value[i], spans.value[j])
  {
    var found: seq<Span> := [];
    var from := 0;
    ghost var at: seq<nat> := [];
    for n := 0 to |fragments|
      invariant |found| == |at| == n
      invariant forall i :: 0 <= i < n ==> found[i] == Span(at[i], |fragments[i]|)
      invariant from == SearchFrom(fragments, at, n)
      invariant Places(text, fragments, at) && Greedy(text, fragments, at)
    {
      var offset := Index(text, fragments[n], from);
      if offset.None? {
        forall other: seq<nat> | PlacesAll(text, fragments, other) ensures false {
          NextIsAhead(text, fragments, at, other);
        }
        return None;
      }
      OneMore(text, fragments, at, offset.value);
      found := found + [Span(offset.value, |fragments[n]|)];
      at := at + [offset.value];
      from := offset.value + |fragments[n]|;
    }
    assert PlacesAll(text, fragments, at);
    forall i | 0 <= i < |at| ensures Occurs(text, fragments[i], at[i]) {
      assert Placed(text, fragments, at, i);
    }
    forall i, j | 0 <= i < j < |at| ensures at[i] + |fragments[i]| <= at[j] {
      PlacedInOrder(text, fragments, at, i, j);
    }
    spans := Some(found);
  }

  /** Emphasis survives the trip: reading the entities back gives the fragments, in order. */
  method SendEmphasis(text: Text, fragments: seq<Text>) returns (entities: Option<seq<Span>>)
    ensures entities.Some? <==>
      (exists at :: PlacesAll(text, fragments, at)) && forall i :: 0 <= i < |fragments| ==> fragments[i] != []
    ensures entities.Some? ==> |entities.value| == |fragments|
    ensures entities.Some? ==> forall i :: 0 <= i < |fragments| ==>
      entities.value[i].offset >= 0 && entities.value[i].length > 0 &&
      EntityText(text, entities.value[i].offset, entities.value[i].length) == fragments[i]
    ensures entities.Some? ==> forall i, j :: 0 <= i < j < |fragments| ==> EndsBefore(entities.value[i],
      entities.value[j])
  {
    var spans := Emphasized(text, fragments);
    if spans.None? {
      return None;
    }
    forall i | 0 <= i < |fragments|
      ensures ValidSpan(text, spans.value[i]) <==> fragments[i] != []
      ensures text[spans.value[i].offset..spans.value[i].offset + spans.value[i].length] == fragments[i]
    {
      assert Occurs(text, fragments[i], spans.value[i].offset);
    }
    entities := FormattingEntities(text, spans.value);
  }
}
