/**
  BufferView, a reader and appender sharing one cursor, and DynamicBuffer, an
  appender with patching in place. Both append through a std::vector, whose
  storage growth is modelled by its capacity.
*/
module Buffers {
  import opened Bytes
  import opened Wrappers

  /** The bytes Write<T> appends for a `width`-byte value. */
  function WordBytes(v: nat, width: nat, bigEndian: bool): (s: seq<byte>)
    ensures |s| == width
  {
    if bigEndian then BigEndian(v, width) else LittleEndian(v, width)
  }

  function WordValue(s: seq<byte>, bigEndian: bool): nat {
    if bigEndian then BigValue(s) else LittleValue(s)
  }

  lemma WordRoundTrip(v: nat, width: nat, bigEndian: bool)
    requires v < Range(width)
    ensures WordValue(WordBytes(v, width, bigEndian), bigEndian) == v
  {
    BigRoundTrip(v, width);
    LittleRoundTrip(v, width);
  }

  /** A std::vector of bytes. */
  class ByteVector {
    var bytes: seq<byte>
    var capacity: nat
    /** How often Insert, rather than Reserve, had to move the storage. */
    ghost var insertGrowths: nat

    ghost predicate Valid()
      reads this
    {
      |bytes| <= capacity
    }

    constructor ()
      ensures Valid() && bytes == [] && insertGrowths == 0
    {
      bytes, capacity, insertGrowths := [], 0, 0;
    }

    method Reserve(n: nat)
      requires Valid()
      modifies this`capacity
      ensures Valid() && n <= capacity && old(capacity) <= capacity
      ensures n <= old(capacity) ==> capacity == old(capacity)
    {
      if n > capacity {
        capacity := n;
      }
    }

    method Insert(data: seq<byte>)
      requires Valid()
      modifies this
      ensures Valid() && bytes == old(bytes) + data
      ensures old(|bytes|) + |data| <= old(capacity) ==>
                capacity == old(capacity) && insertGrowths == old(insertGrowths)
      ensures old(|bytes|) + |data| > old(capacity) ==> insertGrowths == old(insertGrowths) + 1
    {
      if |bytes| + |data| > capacity {
        capacity, insertGrowths := |bytes| + |data|, insertGrowths + 1;
      }
      bytes := bytes + data;
    }
  }

  class BufferView {
    const view: Span
    const vector: ByteVector
    var cursor: nat
    ghost var bytesRead: nat

    /**
      The cursor counts bytes read and bytes written together, so it is never
      behind the vector's size and the explicit reserve of WriteArray always
      leaves room for the insert that follows it.
    */
    ghost predicate Valid()
      reads this, vector
    {
      && view.Valid()
      && vector.Valid()
      && cursor == bytesRead + |vector.bytes|
      && vector.insertGrowths == 0
    }

    constructor (view: Span)
      requires view.Valid()
      ensures Valid() && this.view == view && cursor == 0
      ensures fresh(vector) && vector.bytes == []
    {
      this.view := view;
      this.vector := new ByteVector();
      cursor, bytesRead := 0, 0;
    }

    /** The bytes not read yet; none once the cursor has passed the end. */
    ghost function Rest(): seq<byte>
      requires view.Valid()
      reads this, view.base
    {
      if cursor <= view.size then view.Content()[cursor..] else []
    }

    predicate CanReadBytes(bytesCount: nat)
      reads this
    {
      view.size >= cursor + bytesCount
    }

    /** Copies the next bytes out, or changes nothing when too few are left. */
    method ReadImpl(outData: array<byte>) returns (ok: bool)
      requires Valid() && outData != view.base
      modifies outData, this`cursor, this`bytesRead
      ensures Valid() && ok == (old(cursor) + outData.Length <= view.size)
      ensures ok ==> outData[..] == view.Content()[old(cursor)..old(cursor) + outData.Length]
      ensures cursor == old(cursor) + if ok then outData.Length else 0
    {
      if !CanReadBytes(outData.Length) {
        return false;
      }
      forall i | 0 <= i < outData.Length {
        outData[i] := view.base[view.start + cursor + i];
      }
      cursor, bytesRead := cursor + outData.Length, bytesRead + outData.Length;
      return true;
    }

    method Read(width: nat, bigEndian: bool) returns (r: Option<nat>)
      requires Valid()
      modifies this`cursor, this`bytesRead
      ensures Valid() && r.Some? == (old(cursor) + width <= view.size)
      ensures cursor == old(cursor) + if r.Some? then width else 0
      ensures r.Some? ==> r.value == WordValue(view.Content()[old(cursor)..cursor], bigEndian)
    {
      var raw := new byte[width];
      var ok := ReadImpl(raw);
      if !ok {
        return None;
      }
      ghost var taken := raw[..];
      if bigEndian {
        ReverseEndianness(raw);
      }
      assert raw[..] == if bigEndian then Reverse(taken) else taken;
      return Some(LittleValue(raw[..]));
    }

    /** A sub-view of the next bytes: nothing is copied. */
    method ReadView(viewSize: nat) returns (r: Option<Span>)
      requires Valid()
      modifies this`cursor, this`bytesRead
      ensures Valid() && r.Some? == (old(cursor) + viewSize <= view.size)
      ensures cursor == old(cursor) + if r.Some? then viewSize else 0
      ensures r.Some? ==> r.value == Span(view.base, view.start + old(cursor), viewSize)
    {
      if !CanReadBytes(viewSize) {
        return None;
      }
      r := Some(Span(view.base, view.start + cursor, viewSize));
      cursor, bytesRead := cursor + viewSize, bytesRead + viewSize;
    }

    /**
      ReadString when the length prefix is one byte, ReadLongString when it is
      two. The prefix stays consumed when the string itself is cut short.
    */
    method ReadString(prefix: nat) returns (r: Option<seq<byte>>)
      requires Valid() && (prefix == 1 || prefix == 2)
      modifies this`cursor, this`bytesRead
      ensures Valid() && r == StringAt(old(Rest()), prefix).0
      ensures cursor == old(cursor) + StringAt(old(Rest()), prefix).1
    {
      ghost var s := Rest();
      var length := Read(prefix, false);
      if length.None? {
        return None;
      }
      assert s[..prefix] == view.Content()[old(cursor)..cursor];
      if !CanReadBytes(length.value) {
        return None;
      }
      var str := view.base[view.start + cursor..view.start + cursor + length.value];
      view.Part(cursor, cursor + length.value);
      assert str == s[prefix..prefix + length.value];
      cursor, bytesRead := cursor + length.value, bytesRead + length.value;
      return Some(str);
    }

    method GrowBuffer(bytesToGrow: nat)
      requires Valid()
      modifies vector`capacity
      ensures Valid() && old(vector.capacity) + bytesToGrow <= vector.capacity
    {
      vector.Reserve(vector.capacity + bytesToGrow);
    }

    method WriteArray(data: seq<byte>)
      requires Valid()
      modifies this`cursor, vector
      ensures Valid() && vector.bytes == old(vector.bytes) + data
      ensures cursor == old(cursor) + |data|
    {
      var predictedBufSize := cursor + |data|;
      if predictedBufSize >= vector.capacity {
        GrowBuffer(predictedBufSize - vector.capacity);
      }
      vector.Insert(data);
      cursor := cursor + |data|;
    }

    method Write(data: nat, width: nat, bigEndian: bool)
      requires Valid()
      modifies this`cursor, vector
      ensures Valid() && vector.bytes == old(vector.bytes) + WordBytes(data, width, bigEndian)
      ensures cursor == old(cursor) + width
    {
      var src := HostWord(data, width, bigEndian);
      WriteArray(src);
    }
  }

  /** The optional string a length-prefixed read yields, and the bytes it consumes. */
  function StringAt(s: seq<byte>, prefix: nat): (r: (Option<seq<byte>>, nat))
    ensures r.1 <= |s|
  {
    if |s| < prefix then (None, 0)
    else
      var length := LittleValue(s[..prefix]);
      if |s| < prefix + length then (None, prefix)
      else (Some(s[prefix..prefix + length]), prefix + length)
  }

  method HostWord(data: nat, width: nat, bigEndian: bool) returns (src: seq<byte>)
    ensures src == WordBytes(data, width, bigEndian)
  {
    src := LittleEndian(data, width);
    if bigEndian {
      var raw := new byte[width](i requires 0 <= i < width => src[i]);
      assert raw[..] == src;
      ReverseEndianness(raw);
      src := raw[..];
    }
  }

  class DynamicBuffer {
    const vector: ByteVector
    var curOffset: nat
    /** Set once Seek has moved the offset behind the end of the data. */
    ghost var soughtBack: bool

    ghost predicate Valid()
      reads this, vector
    {
      && vector.Valid()
      && (!soughtBack ==> |vector.bytes| <= curOffset && vector.insertGrowths == 0)
    }

    constructor (initialSize: nat)
      ensures Valid() && fresh(vector) && !soughtBack
      ensures vector.bytes == [] && curOffset == 0 && initialSize <= vector.capacity
    {
      vector := new ByteVector();
      curOffset, soughtBack := 0, false;
      new;
      vector.Reserve(initialSize);
    }

    method GrowBuffer(bytesToGrow: nat)
      requires Valid()
      modifies vector`capacity
      ensures Valid() && old(vector.capacity) + bytesToGrow <= vector.capacity
    {
      vector.Reserve(vector.capacity + bytesToGrow);
    }

    method WriteArray(data: seq<byte>)
      requires Valid()
      modifies this`curOffset, vector
      ensures Valid() && vector.bytes == old(vector.bytes) + data
      ensures curOffset == old(curOffset) + |data|
    {
      var predictedBufSize := curOffset + |data|;
      if predictedBufSize >= vector.capacity {
        GrowBuffer(predictedBufSize - vector.capacity);
      }
      vector.Insert(data);
      curOffset := curOffset + |data|;
    }

    method Write(data: nat, width: nat, bigEndian: bool)
      requires Valid()
      modifies this`curOffset, vector
      ensures Valid() && vector.bytes == old(vector.bytes) + WordBytes(data, width, bigEndian)
      ensures curOffset == old(curOffset) + width
    {
      var src := HostWord(data, width, bigEndian);
      WriteArray(src);
    }

    /**
      WriteString when the length prefix is one byte, WriteLongString when it is
      two. The bound is strict: the largest value of the prefix is never used.
    */
    method WriteString(str: seq<byte>, prefix: nat) returns (ok: bool)
      requires Valid() && (prefix == 1 || prefix == 2)
      modifies this`curOffset, vector
      ensures Valid() && ok == (|str| < Range(prefix) - 1)
      ensures vector.bytes == old(vector.bytes) + if ok then LittleEndian(|str|, prefix) + str else []
      ensures curOffset == old(curOffset) + if ok then prefix + |str| else 0
    {
      Ranges();
      if |str| >= (if prefix == 1 then 0xFF else 0xFFFF) {
        return false;
      }
      Write(|str|, prefix, false);
      WriteArray(str);
      return true;
    }

    /** Patches bytes already written; a patch reaching the last byte is refused. */
    method WriteToOffset(data: nat, width: nat, offset: nat, bigEndian: bool) returns (ok: bool)
      requires Valid()
      modifies vector`bytes
      ensures Valid() && ok == (offset + width < old(|vector.bytes|))
      ensures !ok ==> vector.bytes == old(vector.bytes)
      ensures ok ==>
                vector.bytes == old(vector.bytes)[..offset] + WordBytes(data, width, bigEndian)
                                + old(vector.bytes)[offset + width..]
    {
      var src := HostWord(data, width, bigEndian);
      if || offset >= |vector.bytes| || offset + width >= |vector.bytes|
         || offset >= vector.capacity || offset + width >= vector.capacity {
        return false;
      }
      vector.bytes := vector.bytes[..offset] + src + vector.bytes[offset + width..];
      return true;
    }

    method Seek(offset: nat)
      requires Valid()
      modifies this
      ensures Valid() && curOffset == offset
      ensures soughtBack == (old(soughtBack) || offset < |vector.bytes|)
    {
      curOffset := offset;
      soughtBack := soughtBack || offset < |vector.bytes|;
    }
  }
}
