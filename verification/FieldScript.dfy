/**
  Scripts of fields: what DynamicBuffer writes field by field, BufferView reads
  back by the same script.
*/
module FieldScript {
  import opened Bytes
  import opened Wrappers
  import opened Buffers
  import opened Seqs

  datatype Width = One | Two | Four | Eight {
    function Size(): nat {
      match this
      case One => 1
      case Two => 2
      case Four => 4
      case Eight => 8
    }
  }

  /** A script entry: a number, a string (one byte length) or a long string (two byte length). */
  datatype Shape = WordShape(width: Width, bigEndian: bool) | StrShape(long: bool)

  function PrefixSize(long: bool): nat {
    if long then 2 else 1
  }

  datatype Field = Word(width: Width, bigEndian: bool, number: nat) | Str(long: bool, text: seq<byte>) {
    function Shape(): Shape {
      match this
      case Word(width, bigEndian, _) => WordShape(width, bigEndian)
      case Str(long, _) => StrShape(long)
    }

    function Bytes(): seq<byte> {
      match this
      case Word(width, bigEndian, number) => WordBytes(number, width.Size(), bigEndian)
      case Str(long, text) => LittleEndian(|text|, PrefixSize(long)) + text
    }

    /** The writer throws on a string this long: the largest value of the prefix is never used. */
    predicate TooLong() {
      Str? && |text| >= if long then 0xFFFF else 0xFF
    }

    /** A field that can be told from its bytes: the string is accepted, the number fits its width. */
    predicate Fits() {
      !TooLong() && (Word? ==> number < Range(width.Size()))
    }
  }

  function Encode(fields: seq<Field>): seq<byte> {
    if fields == [] then [] else fields[0].Bytes() + Encode(fields[1..])
  }

  function Shapes(fields: seq<Field>): seq<Shape> {
    if fields == [] then [] else [fields[0].Shape()] + Shapes(fields[1..])
  }

  /** What can be written and read back: numbers of 8, 16, 32 and 64 bits, strings of 254 bytes, long ones of 65534. */
  lemma FitsExactly(f: Field)
    ensures f.Fits() <==>
            match f
            case Word(One, _, number) => number < 0x100
            case Word(Two, _, number) => number < 0x1_0000
            case Word(Four, _, number) => number < 0x1_0000_0000
            case Word(Eight, _, number) => number < 0x1_0000_0000_0000_0000
            case Str(long, text) => |text| <= if long then 65534 else 254
    ensures |f.Bytes()| ==
            match f
            case Word(One, _, _) => 1
            case Word(Two, _, _) => 2
            case Word(Four, _, _) => 4
            case Word(Eight, _, _) => 8
            case Str(long, text) => (if long then 2 else 1) + |text|
  {
    Ranges();
  }

  lemma EncodeCons(f: Field, fields: seq<Field>)
    ensures Encode([f] + fields) == f.Bytes() + Encode(fields)
  {
    assert ([f] + fields)[1..] == fields;
  }

  /** Fields stand in the order they were written in. */
  lemma {:induction false} EncodeAppends(a: seq<Field>, b: seq<Field>)
    ensures Encode(a + b) == Encode(a) + Encode(b)
  {
    if a == [] {
      assert a + b == b;
    } else {
      EncodeAppends(a[1..], b);
      Regroup(a, b);
      EncodeCons(a[0], a[1..] + b);
      Regrouped(a[0].Bytes(), Encode(a[1..]), Encode(b));
    }
  }

  /** The field a read of this shape yields, and the data left after it. */
  function FieldAt(shape: Shape, s: seq<byte>): (r: (Option<Field>, seq<byte>))
    ensures |r.1| <= |s|
  {
    match shape
    case WordShape(width, bigEndian) =>
      if |s| < width.Size() then (None, s)
      else (Some(Word(width, bigEndian, WordValue(s[..width.Size()], bigEndian))), s[width.Size()..])
    case StrShape(long) =>
      var (text, n) := StringAt(s, PrefixSize(long));
      (if text.None? then None else Some(Str(long, text.value)), s[n..])
  }

  /** The fields a script reads, or None when it runs out of data, and the data left. */
  function Decode(shapes: seq<Shape>, s: seq<byte>): (r: (Option<seq<Field>>, seq<byte>))
    ensures |r.1| <= |s|
  {
    if shapes == [] then (Some([]), s)
    else
      var (first, tail) := FieldAt(shapes[0], s);
      if first.None? then (None, tail)
      else
        var (others, rest) := Decode(shapes[1..], tail);
        (if others.None? then None else Some([first.value] + others.value), rest)
  }

  lemma FieldRoundTrip(f: Field, rest: seq<byte>)
    requires f.Fits()
    ensures FieldAt(f.Shape(), f.Bytes() + rest) == (Some(f), rest)
  {
    var s := f.Bytes() + rest;
    Ranges();
    match f
    case Word(width, bigEndian, number) =>
      assert s[..width.Size()] == f.Bytes();
      WordRoundTrip(number, width.Size(), bigEndian);
    case Str(long, text) =>
      var prefix := PrefixSize(long);
      assert s[..prefix] == LittleEndian(|text|, prefix);
      LittleRoundTrip(|text|, prefix);
      assert s[prefix..prefix + |text|] == text;
  }

  lemma DecodeStep(shape: Shape, shapes: seq<Shape>, s: seq<byte>, f: Field, tail: seq<byte>, fields: seq<Field>,
                   rest: seq<byte>)
    requires FieldAt(shape, s) == (Some(f), tail) && Decode(shapes, tail) == (Some(fields), rest)
    ensures Decode([shape] + shapes, s) == (Some([f] + fields), rest)
  {
    assert ([shape] + shapes)[1..] == shapes;
  }

  lemma EncodeFirst(fields: seq<Field>, rest: seq<byte>)
    requires fields != []
    ensures Encode(fields) + rest == fields[0].Bytes() + (Encode(fields[1..]) + rest)
    ensures Shapes(fields) == [fields[0].Shape()] + Shapes(fields[1..])
  {
  }

  /** Reading a script back yields every field and leaves exactly what came after it. */
  lemma {:induction false} ScriptRoundTrip(fields: seq<Field>, rest: seq<byte>)
    requires forall i :: 0 <= i < |fields| ==> fields[i].Fits()
    ensures Decode(Shapes(fields), Encode(fields) + rest) == (Some(fields), rest)
  {
    if fields == [] {
      assert Encode(fields) + rest == rest;
    } else {
      var f, others := fields[0], fields[1..];
      var tail := Encode(others) + rest;
      FieldRoundTrip(f, tail);
      ScriptRoundTrip(others, rest);
      DecodeStep(f.Shape(), Shapes(others), f.Bytes() + tail, f, tail, others, rest);
      EncodeFirst(fields, rest);
      assert [f] + others == fields;
    }
  }

  /** Under one script, different fields never look the same on the wire. */
  lemma EncodeInjective(a: seq<Field>, b: seq<Field>, rest: seq<byte>, rest': seq<byte>)
    requires forall i :: 0 <= i < |a| ==> a[i].Fits()
    requires forall i :: 0 <= i < |b| ==> b[i].Fits()
    requires Shapes(a) == Shapes(b) && Encode(a) + rest == Encode(b) + rest'
    ensures a == b && rest == rest'
  {
    ScriptRoundTrip(a, rest);
    ScriptRoundTrip(b, rest');
  }

  method WriteField(buf: DynamicBuffer, f: Field) returns (ok: bool)
    requires buf.Valid()
    modifies buf`curOffset, buf.vector
    ensures buf.Valid() && ok == !f.TooLong()
    ensures buf.vector.bytes == old(buf.vector.bytes) + if ok then f.Bytes() else []
  {
    match f
    case Word(width, bigEndian, number) =>
      buf.Write(number, width.Size(), bigEndian);
      ok := true;
    case Str(long, text) =>
      Ranges();
      ok := buf.WriteString(text, PrefixSize(long));
  }

  /** The fields before the first string the writer refuses. */
  function Accepted(fields: seq<Field>): seq<Field> {
    if fields == [] || fields[0].TooLong() then [] else [fields[0]] + Accepted(fields[1..])
  }

  lemma {:induction false} AllAccepted(fields: seq<Field>)
    ensures Accepted(fields) <= fields
    ensures Accepted(fields) == fields <==> forall i :: 0 <= i < |fields| ==> !fields[i].TooLong()
    ensures Accepted(fields) < fields ==> fields[|Accepted(fields)|].TooLong()
  {
    if fields != [] {
      AllAccepted(fields[1..]);
      assert fields == [fields[0]] + fields[1..];
    }
  }

  lemma EncodeAccepted(start: seq<byte>, fields: seq<Field>)
    requires fields != [] && !fields[0].TooLong()
    ensures start + Encode(Accepted(fields)) == start + fields[0].Bytes() + Encode(Accepted(fields[1..]))
    ensures |Accepted(fields)| == 1 + |Accepted(fields[1..])|
  {
    assert Accepted(fields)[1..] == Accepted(fields[1..]);
  }

  /** Writes the fields in order; the exception of a refused string ends the script. */
  method WriteFields(buf: DynamicBuffer, fields: seq<Field>) returns (ok: bool)
    requires buf.Valid()
    modifies buf`curOffset, buf.vector
    ensures buf.Valid() && ok == (|Accepted(fields)| == |fields|)
    ensures buf.vector.bytes == old(buf.vector.bytes) + Encode(Accepted(fields))
    decreases fields
  {
    ok := true;
    if fields != [] {
      ghost var start := buf.vector.bytes;
      ok := WriteField(buf, fields[0]);
      if ok {
        ok := WriteFields(buf, fields[1..]);
        EncodeAccepted(start, fields);
      }
    }
  }

  method ReadNumber(view: BufferView, width: Width, bigEndian: bool) returns (r: Option<Field>)
    requires view.Valid() && view.cursor <= view.view.size
    modifies view`cursor, view`bytesRead
    ensures view.Valid() && view.cursor <= view.view.size
    ensures (r, view.Rest()) == FieldAt(WordShape(width, bigEndian), old(view.Rest()))
  {
    ghost var rest, start := view.Rest(), view.cursor;
    var number := view.Read(width.Size(), bigEndian);
    if number.None? {
      return None;
    }
    Suffix(view.view.Content(), start, width.Size());
    assert rest == view.view.Content()[start..];
    return Some(Word(width, bigEndian, number.value));
  }

  method ReadField(view: BufferView, shape: Shape) returns (r: Option<Field>)
    requires view.Valid() && view.cursor <= view.view.size
    modifies view`cursor, view`bytesRead
    ensures view.Valid() && view.cursor <= view.view.size
    ensures (r, view.Rest()) == FieldAt(shape, old(view.Rest()))
  {
    match shape
    case WordShape(width, bigEndian) =>
      r := ReadNumber(view, width, bigEndian);
    case StrShape(long) =>
      ghost var rest, start := view.Rest(), view.cursor;
      var text := view.ReadString(PrefixSize(long));
      assert rest[view.cursor - start..] == view.Rest();
      return if text.None? then None else Some(Str(long, text.value));
  }

  method ReadFields(view: BufferView, shapes: seq<Shape>) returns (r: Option<seq<Field>>)
    requires view.Valid() && view.cursor <= view.view.size
    modifies view`cursor, view`bytesRead
    ensures view.Valid() && view.cursor <= view.view.size
    ensures (r, view.Rest()) == Decode(shapes, old(view.Rest()))
    decreases shapes
  {
    if shapes == [] {
      return Some([]);
    }
    var first := ReadField(view, shapes[0]);
    if first.None? {
      return None;
    }
    var others := ReadFields(view, shapes[1..]);
    return if others.None? then None else Some([first.value] + others.value);
  }

  /** What one peer writes, the other reads: every field, and no byte left over. */
  method WriteThenRead(fields: seq<Field>) returns (r: Option<seq<Field>>, left: int)
    requires forall i :: 0 <= i < |fields| ==> fields[i].Fits()
    ensures r == Some(fields) && left == 0
  {
    var buf := new DynamicBuffer(0);
    var ok := WriteFields(buf, fields);
    AllAccepted(fields);
    var bytes := buf.vector.bytes;
    var view := ViewOf(bytes);
    ScriptRoundTrip(fields, []);
    assert bytes + [] == bytes;
    r := ReadFields(view, Shapes(fields));
    left := view.view.size - view.cursor;
  }

  method ViewOf(bytes: seq<byte>) returns (view: BufferView)
    ensures fresh(view) && view.Valid() && view.cursor == 0 && view.view.size == |bytes| && view.Rest() == bytes
  {
    var base := new byte[|bytes|](i requires 0 <= i < |bytes| => bytes[i]);
    view := new BufferView(Span(base, 0, |bytes|));
    assert view.Rest() == bytes;
  }
}
