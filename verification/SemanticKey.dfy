/**
 The prepared-statement key: a tagged, length-prefixed byte encoding of a bound statement, the
 schema fingerprint and the binder options.

 Every specification function here takes the bytes that follow the field, so that an encoder
 is read from left to right and one field can be peeled off an equation at a time.
 */
module SemanticKey {
  import opened Common

  type Byte = b: int | 0 <= b < 256
  type Word = U64
  type Bytes = seq<Byte>
  type Text = s: seq<Byte> | |s| < TWO_64 witness []
  type List<T> = s: seq<T> | |s| < TWO_64 witness []
  type Emit<!T> = (T, Bytes) -> Bytes

  const TAG_INTEGER: Byte := 105
  const TAG_TEXT: Byte := 115
  const TAG_SEQUENCE: Byte := 118
  const TAG_ABSENT: Byte := 48
  const TAG_PRESENT: Byte := 49

  // ---- encoders -----------------------------------------------------------------------

  function LittleEndian(value: nat, width: nat, rest: Bytes): Bytes {
    if width == 0 then rest else [value % 256] + LittleEndian(value / 256, width - 1, rest)
  }

  function EmitInteger(value: Word, rest: Bytes): Bytes {
    [TAG_INTEGER] + LittleEndian(value, 8, rest)
  }

  function EmitText(value: Text, rest: Bytes): Bytes {
    [TAG_TEXT] + EmitInteger(|value|, value + rest)
  }

  function EmitOptional<T>(value: Option<T>, emit: Emit<T>, rest: Bytes): Bytes {
    if value.Some? then [TAG_PRESENT] + emit(value.value, rest) else [TAG_ABSENT] + rest
  }

  function EmitItems<T>(values: seq<T>, emit: Emit<T>, rest: Bytes): Bytes {
    if values == [] then rest else emit(values[0], EmitItems(values[1..], emit, rest))
  }

  function EmitSequence<T>(values: List<T>, emit: Emit<T>, rest: Bytes): Bytes {
    [TAG_SEQUENCE] + EmitInteger(|values|, EmitItems(values, emit, rest))
  }

  // ---- unambiguous encoders -----------------------------------------------------------

  /** The encoded value and what follows it can both be recovered from the bytes. */
  ghost predicate Unambiguous<T(!new)>(emit: Emit<T>) {
    forall a: T, b: T, x: Bytes, y: Bytes :: emit(a, x) == emit(b, y) ==> a == b && x == y
  }

  /** The encoder writes the same bytes whatever follows. */
  ghost predicate Tailed<T(!new)>(emit: Emit<T>) {
    forall a: T, x: Bytes, y: Bytes :: emit(a, x + y) == emit(a, x) + y
  }

  ghost predicate Sound<T(!new)>(emit: Emit<T>) {
    Unambiguous(emit) && Tailed(emit)
  }

  function Power256(n: nat): nat {
    if n == 0 then 1 else 256 * Power256(n - 1)
  }

  lemma {:induction false} LittleEndianPeel(a: nat, b: nat, width: nat, x: Bytes, y: Bytes)
    requires a < Power256(width) && b < Power256(width)
    requires LittleEndian(a, width, x) == LittleEndian(b, width, y)
    ensures a == b && x == y
  {
    if width > 0 {
      var left, right := LittleEndian(a / 256, width - 1, x), LittleEndian(b / 256, width - 1, y);
      assert ([a % 256] + left)[0] == ([b % 256] + right)[0];
      assert left == ([a % 256] + left)[1..] == ([b % 256] + right)[1..] == right;
      LittleEndianPeel(a / 256, b / 256, width - 1, x, y);
    }
  }

  lemma {:induction false} LittleEndianTail(value: nat, width: nat, x: Bytes, y: Bytes)
    ensures LittleEndian(value, width, x + y) == LittleEndian(value, width, x) + y
  {
    if width > 0 { LittleEndianTail(value / 256, width - 1, x, y); }
  }

  lemma TagPeel(s: Byte, t: Byte, x: Bytes, y: Bytes)
    requires [s] + x == [t] + y
    ensures s == t && x == y
  {
    assert ([s] + x)[0] == ([t] + y)[0];
    assert x == ([s] + x)[1..] == ([t] + y)[1..] == y;
  }

  lemma IntegerPeel(a: Word, b: Word, x: Bytes, y: Bytes)
    requires EmitInteger(a, x) == EmitInteger(b, y)
    ensures a == b && x == y
  {
    TagPeel(TAG_INTEGER, TAG_INTEGER, LittleEndian(a, 8, x), LittleEndian(b, 8, y));
    assert Power256(8) == TWO_64 by { assert Power256(4) == 0x1_0000_0000; }
    LittleEndianPeel(a, b, 8, x, y);
  }

  lemma TextPeel(a: Text, b: Text, x: Bytes, y: Bytes)
    requires EmitText(a, x) == EmitText(b, y)
    ensures a == b && x == y
  {
    TagPeel(TAG_TEXT, TAG_TEXT, EmitInteger(|a|, a + x), EmitInteger(|b|, b + y));
    IntegerPeel(|a|, |b|, a + x, b + y);
    assert a == (a + x)[..|a|] && x == (a + x)[|a|..];
    assert b == (b + y)[..|b|] && y == (b + y)[|b|..];
  }

  lemma IntegerTail(value: Word, x: Bytes, y: Bytes)
    ensures EmitInteger(value, x + y) == EmitInteger(value, x) + y
  {
    LittleEndianTail(value, 8, x, y);
  }

  lemma TextTail(value: Text, x: Bytes, y: Bytes)
    ensures EmitText(value, x + y) == EmitText(value, x) + y
  {
    assert value + (x + y) == value + x + y;
    IntegerTail(|value|, value + x, y);
  }

  /** Integers and texts are self-delimiting. */
  lemma PrimitivesUnambiguous()
    ensures forall a: Word, b: Word, x, y :: EmitInteger(a, x) == EmitInteger(b, y) ==> a == b && x == y
    ensures forall a: Text, b: Text, x, y :: EmitText(a, x) == EmitText(b, y) ==> a == b && x == y
  {
    forall a: Word, b: Word, x, y | EmitInteger(a, x) == EmitInteger(b, y) ensures a == b && x == y {
      IntegerPeel(a, b, x, y);
    }
    forall a: Text, b: Text, x, y | EmitText(a, x) == EmitText(b, y) ensures a == b && x == y {
      TextPeel(a, b, x, y);
    }
  }

  lemma PrimitivesTailed()
    ensures forall a: Word, x, y :: EmitInteger(a, x + y) == EmitInteger(a, x) + y
    ensures forall a: Text, x, y :: EmitText(a, x + y) == EmitText(a, x) + y
  {
    forall a: Word, x, y ensures EmitInteger(a, x + y) == EmitInteger(a, x) + y { IntegerTail(a, x, y); }
    forall a: Text, x, y ensures EmitText(a, x + y) == EmitText(a, x) + y { TextTail(a, x, y); }
  }

  lemma OptionalPeel<T(!new)>(emit: Emit<T>, a: Option<T>, b: Option<T>, x: Bytes, y: Bytes)
    requires Unambiguous(emit) && EmitOptional(a, emit, x) == EmitOptional(b, emit, y)
    ensures a == b && x == y
  {
    TagPeel(if a.Some? then TAG_PRESENT else TAG_ABSENT, if b.Some? then TAG_PRESENT else TAG_ABSENT,
            if a.Some? then emit(a.value, x) else x, if b.Some? then emit(b.value, y) else y);
  }

  lemma OptionalTail<T(!new)>(emit: Emit<T>, value: Option<T>, x: Bytes, y: Bytes)
    requires Tailed(emit)
    ensures EmitOptional(value, emit, x + y) == EmitOptional(value, emit, x) + y
  {
  }

  lemma {:induction false} ItemsPeel<T(!new)>(emit: Emit<T>, a: seq<T>, b: seq<T>, x: Bytes, y: Bytes)
    requires Unambiguous(emit) && |a| == |b| && EmitItems(a, emit, x) == EmitItems(b, emit, y)
    ensures a == b && x == y
  {
    if a != [] {
      ItemsPeel(emit, a[1..], b[1..], x, y);
      assert a == [a[0]] + a[1..] && b == [b[0]] + b[1..];
    }
  }

  lemma SequencePeel<T(!new)>(emit: Emit<T>, a: List<T>, b: List<T>, x: Bytes, y: Bytes)
    requires Unambiguous(emit) && EmitSequence(a, emit, x) == EmitSequence(b, emit, y)
    ensures a == b && x == y
  {
    var left, right := EmitItems(a, emit, x), EmitItems(b, emit, y);
    TagPeel(TAG_SEQUENCE, TAG_SEQUENCE, EmitInteger(|a|, left), EmitInteger(|b|, right));
    IntegerPeel(|a|, |b|, left, right);
    ItemsPeel(emit, a, b, x, y);
  }

  lemma OptionalUnambiguous<T(!new)>(emit: Emit<T>)
    requires Unambiguous(emit)
    ensures forall a: Option<T>, b, x, y :: EmitOptional(a, emit, x) == EmitOptional(b, emit, y) ==> a == b && x == y
  {
    forall a: Option<T>, b, x, y | EmitOptional(a, emit, x) == EmitOptional(b, emit, y) ensures a == b && x == y {
      OptionalPeel(emit, a, b, x, y);
    }
  }

  lemma SequenceUnambiguous<T(!new)>(emit: Emit<T>)
    requires Unambiguous(emit)
    ensures forall a: List<T>, b: List<T>, x, y ::
              EmitSequence(a, emit, x) == EmitSequence(b, emit, y) ==> a == b && x == y
  {
    forall a: List<T>, b: List<T>, x, y | EmitSequence(a, emit, x) == EmitSequence(b, emit, y)
      ensures a == b && x == y
    {
      SequencePeel(emit, a, b, x, y);
    }
  }

  lemma OptionalTailed<T(!new)>(emit: Emit<T>)
    requires Tailed(emit)
    ensures forall a: Option<T>, x, y :: EmitOptional(a, emit, x + y) == EmitOptional(a, emit, x) + y
  {
    forall a: Option<T>, x, y ensures EmitOptional(a, emit, x + y) == EmitOptional(a, emit, x) + y {
      OptionalTail(emit, a, x, y);
    }
  }

  lemma FirstItem<T(!new)>(before: Bytes, items: seq<T>, emit: Emit<T>, rest: Bytes)
    requires Tailed(emit) && items != []
    ensures before + EmitItems(items, emit, rest) == (before + emit(items[0], [])) + EmitItems(items[1..], emit, rest)
  {
    var tail := EmitItems(items[1..], emit, rest);
    assert [] + tail == tail;
    assert emit(items[0], [] + tail) == emit(items[0], []) + tail;
  }

  // ---- the writer ---------------------------------------------------------------------

  /**
   Each method appends one field. The contracts say so against every continuation, which is
   the form in which consecutive calls compose.
   */
  class SemanticKeyWriter {
    var key: Bytes

    constructor ()
      ensures key == []
    {
      key := [];
    }

    method Integer(value: Word)
      modifies this
      ensures forall rest :: key + rest == old(key) + EmitInteger(value, rest)
    {
      key := key + [TAG_INTEGER];
      var shifted := value;  // value >> shift
      for i := 0 to 8
        invariant forall rest ::
                    old(key) + EmitInteger(value, rest) == key + LittleEndian(shifted, 8 - i, rest)
        invariant shifted >= 0
      {
        ghost var before := key;
        key := key + [shifted % 256];
        forall rest
          ensures old(key) + EmitInteger(value, rest) == key + LittleEndian(shifted / 256, 8 - (i + 1), rest)
        {
          assert before + LittleEndian(shifted, 8 - i, rest) == key + LittleEndian(shifted / 256, 8 - (i + 1), rest);
        }
        shifted := shifted / 256;
      }
    }

    method AppendText(value: Text)
      modifies this
      ensures forall rest :: key + rest == old(key) + EmitText(value, rest)
    {
      key := key + [TAG_TEXT];
      Integer(|value|);
      ghost var before := key;
      key := key + value;
      forall rest ensures key + rest == old(key) + EmitText(value, rest) {
        calc {
          key + rest;
          before + (value + rest);
          (old(key) + [TAG_TEXT]) + EmitInteger(|value|, value + rest);
          old(key) + EmitText(value, rest);
        }
      }
    }

    method Optional<T(!new)>(value: Option<T>, emit: Emit<T>)
      requires Tailed(emit)
      modifies this
      ensures forall rest :: key + rest == old(key) + EmitOptional(value, emit, rest)
    {
      key := key + [if value.Some? then TAG_PRESENT else TAG_ABSENT];
      if value.Some? {
        ghost var before := key;
        key := key + emit(value.value, []);
        forall rest ensures key + rest == before + emit(value.value, rest) {
          assert [] + rest == rest;
          assert emit(value.value, [] + rest) == emit(value.value, []) + rest;
        }
      }
    }

    method Sequence<T(!new)>(values: List<T>, emit: Emit<T>)
      requires Tailed(emit)
      modifies this
      ensures forall rest :: key + rest == old(key) + EmitSequence(values, emit, rest)
    {
      key := key + [TAG_SEQUENCE];
      Integer(|values|);
      for i := 0 to |values|
        invariant forall rest ::
                    old(key) + EmitSequence(values, emit, rest) == key + EmitItems(values[i..], emit, rest)
      {
        ghost var before, more := key, values[i + 1..];
        key := key + emit(values[i], []);
        forall rest ensures old(key) + EmitSequence(values, emit, rest) == key + EmitItems(more, emit, rest) {
          assert values[i..][0] == values[i] && values[i..][1..] == more;
          FirstItem(before, values[i..], emit, rest);
        }
      }
    }
  }
}
