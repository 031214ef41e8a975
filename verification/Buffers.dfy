/** net/buffer: a byte queue in a growable array, with a reader and a writer index.

    `Shape` is the index arithmetic alone; the class `Buffer` does the same arithmetic
    over a real array.  Each method is specified by what it does to the shape and to the
    readable bytes, and the lemmas at the end speak about every run of operations.
 */
module Buffers {

  type Byte = bv8

  const CHEAP_PREPEND: nat := 8
  const INITIAL_SIZE: nat := 1024
  const EXTRA_BUF: nat := 65536
  const SIZE_T: nat := 0x1_0000_0000_0000_0000

  datatype Shape = Shape(size: nat, reader: nat, writer: nat) {
    ghost predicate Valid() {
      CHEAP_PREPEND <= reader <= writer <= size
    }

    function Readable(): int { writer - reader }

    function Writable(): int { size - writer }

    /** buffer::retrieve */
    function Retrieved(len: nat): Shape {
      if len < Readable() then this.(reader := reader + len) else Shape(size, CHEAP_PREPEND, CHEAP_PREPEND)
    }

    /** buffer::make_space */
    function Spaced(len: nat): Shape
      requires Valid()
    {
      if Writable() + reader < len + CHEAP_PREPEND then this.(size := writer + len)
      else Shape(size, CHEAP_PREPEND, CHEAP_PREPEND + Readable())
    }

    /** buffer::ensure_writeable_bytes */
    function Ensured(len: nat): Shape
      requires Valid()
    {
      if Writable() < len then Spaced(len) else this
    }

    /** buffer::append */
    function Appended(len: nat): Shape
      requires Valid()
    {
      var s := Ensured(len);
      s.(writer := s.writer + len)
    }

    /** The index arithmetic of buffer::read_fd for a read of `n` bytes.  The overflow
        branch adds buffer_.size() to the writer index as it is written, and its append,
        which then makes no space, adds the rest; repaired, it sets the writer index to
        buffer_.size(), the end of the space readv has filled. */
    function Read(n: nat, repaired: bool): Shape
      requires Valid()
    {
      if n <= Writable() then this.(writer := writer + n)
      else if repaired then this.(writer := size).Appended(n - Writable())
      else this.(writer := writer + size + (n - Writable()))
    }
  }

  /** In the written overflow branch, `w` being the writer index after its first statement,
      the size_t subtraction buffer_.size() - w wraps, so the append that follows sees ample
      space for the `len` bytes of the overflow area, makes none, copies them to a place
      beyond the end of the vector, and adds their number to the writer index. */
  lemma OverflowEscapes(s: Shape, len: nat)
    requires s.Valid() && s.writer + len <= SIZE_T && 0 < len
    ensures var w := s.writer + s.size;
            && (s.size - w) % SIZE_T >= len && w >= s.size + CHEAP_PREPEND
            && s.Read(s.Writable() + len, false) == s.(writer := w + len)
  {
    assert s.size - (s.writer + s.size) == SIZE_T - s.writer - SIZE_T;
  }

  /** read_fd keeps the index invariant exactly when it is repaired or the bytes read fit
      the space behind the writer index. */
  lemma ReadKeepsShape(s: Shape, n: nat, repaired: bool)
    requires s.Valid()
    ensures s.Read(n, repaired).Valid() <==> repaired || n <= s.Writable()
  {
  }

  /** The written form on a fresh buffer: reading one byte more than the 1016 that fit
      leaves the writer index at 1033, beyond the 1024 bytes of the array. */
  lemma ReadOverflowExample()
    ensures var s := Shape(INITIAL_SIZE, CHEAP_PREPEND, CHEAP_PREPEND);
            s.Valid() && s.Read(1017, false).writer == 1033 && !s.Read(1017, false).Valid()
            && s.Read(1017, true).Valid() && s.Read(1017, true).Readable() == 1017
  {
  }

  /** What readv reports: the bytes it stored, or a failure with its errno. */
  datatype ReadResult = Got(bytes: seq<Byte>) | Failed(errno: int)

  /** The space of the iovecs that readv is given: the tail, and the overflow area unless
      the tail is as long. */
  function ReadSpace(writable: nat): (n: nat)
    ensures n >= EXTRA_BUF
  {
    writable + if writable < EXTRA_BUF then EXTRA_BUF else 0
  }

  predicate ReadFits(res: ReadResult, writable: nat) {
    res.Got? ==> |res.bytes| <= ReadSpace(writable)
  }

  function Min(a: nat, b: nat): nat { if a < b then a else b }

  class Buffer {
    var data: array<Byte>
    var reader: nat
    var writer: nat

    ghost predicate Valid()
      reads this
    {
      View().Valid()
    }

    function View(): Shape
      reads this
    {
      Shape(data.Length, reader, writer)
    }

    /** The readable bytes, oldest first. */
    function Contents(): seq<Byte>
      reads this, data
      requires Valid()
    {
      data[reader..writer]
    }

    constructor (initialSize: nat := INITIAL_SIZE)
      requires CHEAP_PREPEND <= initialSize
      ensures Valid() && fresh(data)
      ensures View() == Shape(initialSize, CHEAP_PREPEND, CHEAP_PREPEND) && Contents() == []
    {
      data := new Byte[initialSize](_ => 0);
      reader, writer := CHEAP_PREPEND, CHEAP_PREPEND;
    }

    method RetrieveAll()
      requires Valid()
      modifies this
      ensures Valid() && data == old(data)
      ensures View() == Shape(data.Length, CHEAP_PREPEND, CHEAP_PREPEND) && Contents() == []
    {
      reader := CHEAP_PREPEND;
      writer := CHEAP_PREPEND;
    }

    method Retrieve(len: nat)
      requires Valid()
      modifies this
      ensures Valid() && data == old(data)
      ensures View() == old(View()).Retrieved(len)
      ensures Contents() == old(Contents())[Min(len, |old(Contents())|)..]
    {
      if len < writer - reader {
        reader := reader + len;
      } else {
        RetrieveAll();
      }
    }

    /** The string is built from `len` bytes at peek() whether or not they are readable:
        only the array bounds it. */
    method RetrieveAsString(len: nat) returns (res: seq<Byte>)
      requires Valid() && reader + len <= data.Length
      modifies this
      ensures Valid() && data == old(data)
      ensures View() == old(View()).Retrieved(len)
      ensures |res| == len
      ensures if len <= |old(Contents())| then res + Contents() == old(Contents())
              else old(Contents()) <= res && Contents() == []
    {
      res := data[reader..reader + len];
      ghost var n := Min(len, writer - reader);
      assert Contents() == res[..n] + Contents()[n..];
      Retrieve(len);
      assert len == n ==> res[..n] == res;
    }

    method RetrieveAllAsString() returns (res: seq<Byte>)
      requires Valid()
      modifies this
      ensures Valid() && data == old(data)
      ensures res == old(Contents()) && Contents() == []
    {
      res := RetrieveAsString(writer - reader);
    }

    /** std::copy within the array.  The standard asks that the destination does not start
        inside the source range; this call site gives the stronger `dst < src`. */
    method CopyDown(dst: nat, src: nat, n: nat)
      requires dst < src && src + n <= data.Length
      modifies data
      ensures data[dst..dst + n] == old(data[src..src + n])
      ensures data[..dst] == old(data[..dst])
    {
      ghost var was := data[..];
      var i := 0;
      while i < n
        invariant i <= n
        invariant forall k | dst <= k < dst + i :: data[k] == was[k + (src - dst)]
        invariant forall k | 0 <= k < dst || dst + i <= k < data.Length :: data[k] == was[k]
      {
        data[dst + i] := data[src + i];
        i := i + 1;
      }
      assert data[dst..dst + n] == was[src..src + n];
    }

    /** vector::resize: the old elements stay and zeros follow. */
    method Resize(size: nat)
      requires data.Length <= size
      modifies this`data
      ensures fresh(data) && data.Length == size
      ensures data[..old(data.Length)] == old(data[..])
    {
      var was := data;
      var now := new Byte[size](_ => 0);
      forall i | 0 <= i < was.Length {
        now[i] := was[i];
      }
      data := now;
    }

    /** Called only when the tail is too small; then, where it moves the bytes down, the
        reader index is strictly above the prepend area. */
    method MakeSpace(len: nat)
      requires Valid() && data.Length - writer < len
      modifies this, data
      ensures Valid() && (data == old(data) || fresh(data))
      ensures View() == old(View()).Spaced(len)
      ensures data.Length - writer >= len
      ensures Contents() == old(Contents())
      ensures data.Length == old(data.Length) ==> old(reader) > CHEAP_PREPEND
    {
      ghost var before := Contents();
      if data.Length - writer + reader < len + CHEAP_PREPEND {
        Resize(writer + len);
        assert Contents() == data[..old(data.Length)][reader..writer] == old(data[..])[reader..writer];
      } else {
        var readable := writer - reader;
        CopyDown(CHEAP_PREPEND, reader, readable);
        reader := CHEAP_PREPEND;
        writer := reader + readable;
      }
    }

    method EnsureWriteableBytes(len: nat)
      requires Valid()
      modifies this, data
      ensures Valid() && (data == old(data) || fresh(data))
      ensures View() == old(View()).Ensured(len)
      ensures data.Length - writer >= len
      ensures Contents() == old(Contents())
    {
      if data.Length - writer < len {
        MakeSpace(len);
      }
    }

    /** std::copy into the space behind the writer index. */
    method CopyIn(bytes: seq<Byte>)
      requires Valid() && |bytes| <= data.Length - writer
      modifies data
      ensures data[writer..writer + |bytes|] == bytes
      ensures data[..writer] == old(data[..writer])
    {
      forall i | 0 <= i < |bytes| {
        data[writer + i] := bytes[i];
      }
    }

    /** writer_idx_ += n, over bytes already copied in. */
    method Advance(n: nat)
      requires Valid() && n <= data.Length - writer
      modifies this`writer
      ensures Valid() && View() == old(View()).(writer := old(writer) + n)
      ensures Contents() == old(Contents()) + data[old(writer)..old(writer) + n]
    {
      writer := writer + n;
    }

    method Append(bytes: seq<Byte>)
      requires Valid()
      modifies this, data
      ensures Valid() && (data == old(data) || fresh(data))
      ensures View() == old(View()).Appended(|bytes|)
      ensures Contents() == old(Contents()) + bytes
    {
      EnsureWriteableBytes(|bytes|);
      ghost var before := Contents();
      CopyIn(bytes);
      assert Contents() == data[..writer][reader..] == before;
      Advance(|bytes|);
    }

    /** The scatter read itself: the kernel fills the tail first and the overflow area,
        returned here, with the rest. */
    method Readv(bytes: seq<Byte>) returns (extra: seq<Byte>)
      requires Valid()
      modifies data
      ensures Contents() == old(Contents())
      ensures var n := Min(|bytes|, data.Length - writer);
              data[writer..writer + n] == bytes[..n] && extra == bytes[n..]
    {
      var n := Min(|bytes|, data.Length - writer);
      ghost var before := Contents();
      CopyIn(bytes[..n]);
      assert Contents() == data[..writer][reader..] == before;
      extra := bytes[n..];
    }

    /** The overflow branch as its comments describe it: the tail is full, so the writer
        index goes to the end, and the overflow area is appended. */
    method TakeOverflow(direct: seq<Byte>, extra: seq<Byte>)
      requires Valid() && data[writer..] == direct
      modifies this, data
      ensures Valid() && (data == old(data) || fresh(data))
      ensures View() == old(View()).(writer := old(data.Length)).Appended(|extra|)
      ensures Contents() == old(Contents()) + (direct + extra)
    {
      ghost var before := Contents();
      Advance(data.Length - writer);
      assert Contents() == before + direct;
      Append(extra);
      assert before + direct + extra == before + (direct + extra);
    }

    /** The overflow branch as it is written, with the indices that it computes. */
    method Overrun(extra: nat)
      requires Valid() && 0 < extra
      modifies this`writer
      ensures View() == old(View()).Read(old(View()).Writable() + extra, false) && !Valid()
    {
      writer := writer + data.Length;
      writer := writer + extra;
    }

    /** Either form, after a read that has filled the tail. */
    method TakeMore(direct: seq<Byte>, extra: seq<Byte>, repaired: bool) returns (ok: bool)
      requires Valid() && data[writer..] == direct && 0 < |extra|
      modifies this, data
      ensures ok == repaired
      ensures data == old(data) || fresh(data)
      ensures View() == old(View()).Read(|direct| + |extra|, repaired)
      ensures if ok then Valid() && Contents() == old(Contents()) + (direct + extra) else !Valid()
    {
      ok := repaired;
      if repaired {
        TakeOverflow(direct, extra);
      } else {
        Overrun(|extra|);
      }
    }

    /** A scatter read into the tail and a 64 KiB overflow area.  `ok` is false where the
        written overflow branch moves the writer index beyond the array, so that its append
        copies out of bounds: then only the indices are those the code computes, and nothing
        is said about the bytes. */
    method ReadFd(res: ReadResult, repaired: bool) returns (ret: int, ok: bool)
      requires Valid() && ReadFits(res, View().Writable())
      modifies this, data
      ensures ret == if res.Got? then |res.bytes| else -1
      ensures ok <==> repaired || res.Failed? || |res.bytes| <= old(View().Writable())
      ensures data == old(data) || fresh(data)
      ensures View() == if res.Failed? then old(View()) else old(View()).Read(|res.bytes|, repaired)
      ensures ok <==> Valid()
      ensures ok ==> Contents() == old(Contents()) + if res.Got? then res.bytes else []
    {
      ok := true;
      if res.Failed? {
        return -1, true;
      }
      var writable := data.Length - writer;
      var extra := Readv(res.bytes);
      ret := |res.bytes|;
      if ret <= writable {
        Advance(ret);
      } else {
        ok := TakeMore(res.bytes[..writable], extra, repaired);
        assert res.bytes == res.bytes[..writable] + extra;
      }
    }
  }

  /** What write(2) reports, by the errors that tcp_connection.cc tells apart:
      EWOULDBLOCK, then EPIPE or ECONNRESET, then any other. */
  datatype WriteResult = Wrote(n: nat) | WouldBlock | PeerGone | OtherError

  predicate WriteFits(res: WriteResult, len: int) {
    res.Wrote? ==> res.n <= len
  }

  // ---- every run of operations ----

  datatype Op = Append(bytes: seq<Byte>) | Retrieve(len: nat) | Read(got: seq<Byte>)

  function StepShape(s: Shape, op: Op): (r: Shape)
    requires s.Valid()
    ensures r.Valid()
  {
    match op
    case Append(bytes) => s.Appended(|bytes|)
    case Retrieve(len) => s.Retrieved(len)
    case Read(got) => s.Read(|got|, true)
  }

  function StepQueue(q: seq<Byte>, op: Op): seq<Byte> {
    match op
    case Append(bytes) => q + bytes
    case Retrieve(len) => q[Min(len, |q|)..]
    case Read(got) => q + got
  }

  /** The shape after a run, with read_fd repaired. */
  function RunShape(s: Shape, ops: seq<Op>): (r: Shape)
    requires s.Valid()
    ensures r.Valid()
    decreases |ops|
  {
    if ops == [] then s
    else
      StepShape(RunShape(s, ops[..|ops| - 1]), ops[|ops| - 1])
  }

  /** The same run on a plain byte queue. */
  function RunQueue(q: seq<Byte>, ops: seq<Op>): seq<Byte>
    decreases |ops|
  {
    if ops == [] then q
    else
      StepQueue(RunQueue(q, ops[..|ops| - 1]), ops[|ops| - 1])
  }

  /** The longest that the queue has been during the run. */
  function Peak(q: seq<Byte>, ops: seq<Op>): nat
    decreases |ops|
  {
    var now := |RunQueue(q, ops)|;
    if ops == [] then now
    else
      var before := Peak(q, ops[..|ops| - 1]);
      Max(before, now)
  }

  function Max(a: nat, b: nat): nat { if a < b then b else a }

  /** One growth step stays within twice the readable bytes it makes room for, plus 7. */
  lemma AppendBound(s: Shape, len: nat)
    requires s.Valid()
    ensures s.Appended(len).Readable() == s.Readable() + len
    ensures s.Appended(len).size <= Max(s.size, 2 * (s.Readable() + len) + 7)
  {
  }

  lemma StepBound(s: Shape, q: seq<Byte>, op: Op)
    requires s.Valid() && s.Readable() == |q|
    ensures var q' := StepQueue(q, op);
            StepShape(s, op).Readable() == |q'| && StepShape(s, op).size <= Max(s.size, 2 * |q'| + 7)
  {
    match op
    case Append(bytes) => AppendBound(s, |bytes|);
    case Retrieve(_) =>
    case Read(got) =>
      if |got| > s.Writable() {
        AppendBound(s.(writer := s.size), |got| - s.Writable());
      }
  }

  /** The buffer holds as many readable bytes as the queue, and its size never exceeds
      the larger of its first size and 2P + 7, P being the peak of the queue. */
  lemma {:induction false} CapacityBound(s: Shape, q: seq<Byte>, ops: seq<Op>)
    requires s.Valid() && s.Readable() == |q|
    ensures RunShape(s, ops).Readable() == |RunQueue(q, ops)|
    ensures RunShape(s, ops).size <= Max(s.size, 2 * Peak(q, ops) + 7)
    decreases |ops|
  {
    if ops == [] {
    } else {
      var before := ops[..|ops| - 1];
      CapacityBound(s, q, before);
      StepBound(RunShape(s, before), RunQueue(q, before), ops[|ops| - 1]);
    }
  }

  /** The bound is tight: it is reached by appending one byte to the smallest buffer. */
  lemma CapacityBoundTight()
    ensures var s := Shape(CHEAP_PREPEND, CHEAP_PREPEND, CHEAP_PREPEND);
            var ops := [Append([0])];
            RunShape(s, ops).size == 2 * Peak([], ops) + 7 > s.size
  {
    var ops := [Append([0])];
    assert ops[..0] == [];
    assert RunQueue([], ops) == [0];
  }

  /** One operation on a real buffer. */
  method RunOp(b: Buffer, op: Op)
    requires b.Valid() && OpFits(b.View(), op)
    modifies b, b.data
    ensures b.Valid() && (b.data == old(b.data) || fresh(b.data))
    ensures b.View() == StepShape(old(b.View()), op)
    ensures b.Contents() == StepQueue(old(b.Contents()), op)
  {
    match op
    case Append(bytes) => b.Append(bytes);
    case Retrieve(len) => b.Retrieve(len);
    case Read(got) => var _, _ := b.ReadFd(Got(got), true);
  }

  /** No read of the run exceeds the space that readv is given. */
  predicate ReadsFit(s: Shape, ops: seq<Op>)
    requires s.Valid()
    decreases |ops|
  {
    ops != [] ==>
      var n := |ops| - 1;
      ReadsFit(s, ops[..n]) && OpFits(RunShape(s, ops[..n]), ops[n])
  }

  predicate OpFits(s: Shape, op: Op)
    requires s.Valid()
  {
    op.Read? ==> ReadFits(Got(op.got), s.Writable())
  }

  method RunEach(b: Buffer, ops: seq<Op>)
    requires b.Valid() && ReadsFit(b.View(), ops)
    modifies b, b.data
    decreases |ops|
    ensures b.Valid() && (b.data == old(b.data) || fresh(b.data))
    ensures b.View() == RunShape(old(b.View()), ops)
    ensures b.Contents() == RunQueue(old(b.Contents()), ops)
  {
    if ops != [] {
      var n := |ops| - 1;
      RunEach(b, ops[..n]);
      RunOp(b, ops[n]);
    }
  }

  /** A real buffer under any run of operations shows the queue, within the bound. */
  method RunOps(b: Buffer, ops: seq<Op>)
    requires b.Valid() && ReadsFit(b.View(), ops)
    modifies b, b.data
    ensures b.Valid() && (b.data == old(b.data) || fresh(b.data))
    ensures b.View() == RunShape(old(b.View()), ops)
    ensures b.Contents() == RunQueue(old(b.Contents()), ops)
    ensures b.data.Length <= Max(old(b.data.Length), 2 * Peak(old(b.Contents()), ops) + 7)
  {
    CapacityBound(b.View(), b.Contents(), ops);
    RunEach(b, ops);
  }
}
