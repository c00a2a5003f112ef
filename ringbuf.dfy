/**
 * The fixed-capacity circular byte buffer of the macOS example (`volc_ringbuf.c`).
 * `head` is where the next byte is written, `tail` where the next byte is read;
 * one slot always stays empty, so the backing array has one byte more than asked for.
 */
module RingBuf {
  import opened Common

  /** RINGBBUF_FILL_BYTE_SIZE: the spare slot that tells a full buffer from an empty one. */
  const FILL_BYTE_SIZE: int := 1

  /** The attribute bits that select what `_read_internal` / `_write_internal` do. */
  const ATTR_READ: bv8 := 1
  const ATTR_SYNC: bv8 := 2
  const ATTR_WRITE: bv8 := 4

  predicate ReadAttrSet(attr: bv8) { attr & ATTR_READ != 0 }
  predicate SyncAttrSet(attr: bv8) { attr & ATTR_SYNC != 0 }
  predicate WriteAttrSet(attr: bv8) { attr & ATTR_WRITE != 0 }

  /** Reducing a value below twice the modulus subtracts it at most once. */
  lemma ModOnce(x: int, m: int)
    requires 0 < m && 0 <= x < 2 * m
    ensures x % m == if x < m then x else x - m
  {
    if x >= m {
      assert x == 1 * m + (x - m);
    }
  }

  /** The array index `k` places after `from`, wrapping once at the end: `(from + k) % size`. */
  function Slot(from: int, k: int, size: int): (r: int)
    requires 0 <= from < size && 0 <= k < size
    ensures 0 <= r < size
    ensures r == (from + k) % size
  {
    ModOnce(from + k, size);
    if from + k < size then from + k else from + k - size
  }

  /** Whether index `j` is one of the `n` slots that start at `from` and wrap at the end. */
  predicate Covers(from: int, n: int, size: int, j: int)
  {
    (from <= j < from + n) || j + size < from + n
  }

  /** `ringbuf_impl_t`: `size` is the length of `buf`, i.e. the requested capacity plus one. */
  class RingBuffer {
    var size: int
    var buf: array<Byte>
    var head: int
    var tail: int

    ghost predicate Valid()
      reads this
    {
      && 2 <= size
      && buf.Length == size
      && 0 <= head < size
      && 0 <= tail < size
    }

    /** The queued bytes, oldest first: from `tail` up to `head`, wrapping at the end of `buf`. */
    ghost function Contents(): seq<Byte>
      reads this, buf
      requires Valid()
    {
      Queued(buf[..], head, tail)
    }

    /** The capacity the caller asked for. */
    function Capacity(): (c: int)
      reads this
      requires Valid()
      ensures c >= 1
    {
      size - FILL_BYTE_SIZE
    }

    /** `_get_data_size` / `volc_ringbuf_getdatasize`: the number of queued bytes. */
    function DataSize(): (r: int)
      reads this, buf
      requires Valid()
      ensures r == |Contents()|
      ensures 0 <= r <= Capacity()
    {
      QueuedAt(buf[..], head, tail);
      (head + size - tail) % size
    }

    /** `_get_free_size` / `volc_ringbuf_getfreesize`: what a write may still add. */
    function FreeSize(): (r: int)
      reads this, buf
      requires Valid()
      ensures r >= 0
      ensures r + |Contents()| == Capacity()
    {
      size - DataSize() - FILL_BYTE_SIZE
    }

    /** `_create_ring_buf` followed by `_init_ring_buf(size)`. */
    constructor Init(requested: int)
      requires requested > 0
      ensures Valid() && fresh(buf)
      ensures size == requested + FILL_BYTE_SIZE && head == 0 && tail == 0
      ensures Contents() == []
    {
      size := requested + FILL_BYTE_SIZE;
      buf := new Byte[requested + FILL_BYTE_SIZE];
      head, tail := 0, 0;
    }

    /** The copy half of `_write_internal`: `s` goes to `buf` from `head`, split at the end of `buf`. */
    method StoreAtHead(s: seq<Byte>)
      requires Valid() && |s| < size
      modifies buf
      ensures Valid()
      ensures forall k :: 0 <= k < |s| ==> buf[Slot(head, k, size)] == s[k]
      ensures forall j :: 0 <= j < size && !Covers(head, |s|, size, j) ==> buf[j] == old(buf[j])
    {
      var pos := (head + |s|) % size;
      ModOnce(head + |s|, size);
      if pos >= head {
        CopyInto(buf, head, s);
      } else {
        var remain := size - head;
        var first := s[..remain];
        var second := s[remain..];
        CopyInto(buf, head, first);
        CopyInto(buf, 0, second);
      }
    }

    /**
     * `_write_internal`: copy `n` bytes from `src` to `buf` at `head` if WRITE is set, and move `head`
     * on if SYNC is set. Its only caller has checked the free space.
     */
    method WriteInternal(src: seq<Byte>, n: int, attr: bv8) returns (r: int)
      requires Valid()
      requires 0 <= n <= |src| && n <= FreeSize()
      modifies this`head, buf
      ensures Valid() && r == n && tail == old(tail)
      ensures head == if SyncAttrSet(attr) then (old(head) + n) % size else old(head)
      ensures !WriteAttrSet(attr) ==> buf[..] == old(buf[..])
      ensures WriteAttrSet(attr) ==> forall k :: 0 <= k < n ==> buf[Slot(old(head), k, size)] == src[k]
      ensures WriteAttrSet(attr) ==> forall j :: 0 <= j < size && !Covers(old(head), n, size, j) ==>
        buf[j] == old(buf[j])
      ensures WriteAttrSet(attr) && SyncAttrSet(attr) ==> Contents() == old(Contents()) + src[..n]
    {
      ghost var b, c := buf[..], Contents();
      assert n + (head + size - tail) % size < size;
      var pos := (head + n) % size;
      if WriteAttrSet(attr) {
        StoreAtHead(src[..n]);
      }
      if SyncAttrSet(attr) {
        head := pos;
      }
      r := n;
      if WriteAttrSet(attr) && SyncAttrSet(attr) {
        AppendContents(b, buf, old(head), tail, src[..n]);
        assert Contents() == c + src[..n];
      }
    }

    /** The copy half of `_read_internal`: the `n` bytes from `tail` on into `dst`, split at the end of `buf`. */
    method FetchAtTail(dst: array<Byte>, n: int)
      requires Valid() && dst != buf
      requires 0 <= n <= dst.Length && n < size
      modifies dst
      ensures forall k :: 0 <= k < n ==> dst[k] == buf[Slot(tail, k, size)]
      ensures forall k :: n <= k < dst.Length ==> dst[k] == old(dst[k])
    {
      var pos := (tail + n) % size;
      ModOnce(tail + n, size);
      if pos >= tail {
        var whole := buf[tail..tail + n];
        CopyInto(dst, 0, whole);
      } else {
        var remain := size - tail;
        var first := buf[tail..size];
        var second := buf[..n - remain];
        CopyInto(dst, 0, first);
        CopyInto(dst, remain, second);
      }
    }

    /**
     * `_read_internal`: copy `n` bytes from `buf` at `tail` into `dst` if READ is set, and move `tail`
     * on if SYNC is set. Its only caller has checked the data size.
     */
    method ReadInternal(dst: array<Byte>, n: int, attr: bv8) returns (r: int)
      requires Valid() && dst != buf
      requires 0 <= n <= dst.Length && n <= DataSize()
      modifies this`tail, dst
      ensures Valid() && r == n && head == old(head) && buf[..] == old(buf[..])
      ensures tail == if SyncAttrSet(attr) then (old(tail) + n) % size else old(tail)
      ensures ReadAttrSet(attr) ==> dst[..n] == old(Contents())[..n] && dst[n..] == old(dst[n..])
      ensures !ReadAttrSet(attr) ==> dst[..] == old(dst[..])
      ensures Contents() == if SyncAttrSet(attr) then old(Contents())[n..] else old(Contents())
    {
      ghost var b, c := buf[..], Contents();
      QueuedAt(b, head, tail);
      var pos := (tail + n) % size;
      if ReadAttrSet(attr) {
        FetchAtTail(dst, n);
        assert dst[..n] == c[..n];
      }
      if SyncAttrSet(attr) {
        tail := pos;
        DropQueued(b, head, old(tail), n);
        assert Contents() == c[n..];
      }
      r := n;
    }

    /** `_ring_buffer_write` through `volc_ringbuf_write`: all or nothing, WRITE|SYNC. */
    method Write(src: seq<Byte>, writelen: int) returns (r: int)
      requires Valid()
      requires 0 <= writelen <= |src|
      modifies this`head, buf
      ensures Valid() && tail == old(tail)
      ensures r == if writelen > old(FreeSize()) then -1 else writelen
      ensures r == -1 ==> head == old(head) && buf[..] == old(buf[..])
      ensures r != -1 ==> head == (old(head) + writelen) % size
      ensures r != -1 ==> forall k :: 0 <= k < writelen ==> buf[Slot(old(head), k, size)] == src[k]
      ensures r != -1 ==> forall j :: 0 <= j < size && !Covers(old(head), writelen, size, j) ==>
        buf[j] == old(buf[j])
      ensures Contents() == if r == -1 then old(Contents()) else old(Contents()) + src[..writelen]
    {
      if FreeSize() < writelen {
        return -1;
      }
      r := WriteInternal(src, writelen, ATTR_WRITE | ATTR_SYNC);
    }

    /** `_ring_buffer_read` through `volc_ringbuf_read`: all or nothing, READ|SYNC. */
    method Read(dst: array<Byte>, readlen: int) returns (r: int)
      requires Valid() && dst != buf
      requires 0 <= readlen <= dst.Length
      modifies this`tail, dst
      ensures Valid() && head == old(head) && buf[..] == old(buf[..])
      ensures r == if readlen > old(DataSize()) then -1 else readlen
      ensures r == -1 ==> tail == old(tail) && dst[..] == old(dst[..])
      ensures r != -1 ==> tail == (old(tail) + readlen) % size
      ensures r != -1 ==> dst[..readlen] == old(Contents())[..readlen] && dst[readlen..] == old(dst[readlen..])
      ensures Contents() == if r == -1 then old(Contents()) else old(Contents())[readlen..]
    {
      if DataSize() < readlen {
        return -1;
      }
      r := ReadInternal(dst, readlen, ATTR_READ | ATTR_SYNC);
    }

    /** `volc_ringbuf_peek`: the bytes a read would return, READ only, so neither cursor moves. */
    method Peek(dst: array<Byte>, readlen: int) returns (r: int)
      requires Valid() && dst != buf
      requires 0 <= readlen <= dst.Length
      modifies this`tail, dst
      ensures Valid() && tail == old(tail)
      ensures r == if readlen > DataSize() then -1 else readlen
      ensures r == -1 ==> dst[..] == old(dst[..])
      ensures r != -1 ==> dst[..readlen] == Contents()[..readlen] && dst[readlen..] == old(dst[readlen..])
    {
      if DataSize() < readlen {
        return -1;
      }
      r := ReadInternal(dst, readlen, ATTR_READ);
    }

    /** `volc_ringbuf_clear`: both cursors to 0; the stored bytes stay as they are. */
    method Clear() returns (r: int)
      requires Valid()
      modifies this`head, this`tail
      ensures Valid() && r == 0
      ensures head == 0 && tail == 0 && Contents() == [] && DataSize() == 0
      ensures FreeSize() == Capacity()
    {
      head, tail := 0, 0;
      r := 0;
    }
  }

  /** `volc_ringbuf_create`: NULL for a non-positive size, else an empty buffer of `size + 1` bytes. */
  method Create(size: int) returns (rb: RingBuffer?)
    ensures size <= 0 <==> rb == null
    ensures rb != null ==> fresh(rb) && fresh(rb.buf) && rb.Valid()
    ensures rb != null ==> rb.size == size + 1 && rb.head == 0 && rb.tail == 0
    ensures rb != null ==> rb.Contents() == [] && rb.Capacity() == size && rb.FreeSize() == size
  {
    if size <= 0 {
      return null;
    }
    rb := new RingBuffer.Init(size);
  }

  /**
   * The FIFO round trip: a write that fits, then a read of everything queued, hands back the bytes
   * that were already queued followed by the written ones and leaves the buffer empty, wherever the
   * cursors stood (so across the end of the array as well).
   */
  method WriteThenReadAll(rb: RingBuffer, src: seq<Byte>, dst: array<Byte>) returns (w: int, r: int)
    requires rb.Valid() && dst != rb.buf
    requires |src| <= rb.FreeSize() && rb.DataSize() + |src| <= dst.Length
    modifies rb`head, rb`tail, rb.buf, dst
    ensures w == |src| && r == |old(rb.Contents())| + |src|
    ensures dst[..r] == old(rb.Contents()) + src
    ensures rb.Valid() && rb.Contents() == []
  {
    w := rb.Write(src, |src|);
    assert src[..|src|] == src;
    var n := rb.DataSize();
    r := rb.Read(dst, n);
  }

  /** The bytes queued between read cursor `t` and write cursor `h` of the backing store `b`. */
  ghost function Queued(b: seq<Byte>, h: int, t: int): seq<Byte>
    requires 0 <= h < |b| && 0 <= t < |b|
  {
    if t <= h then b[t..h] else b[t..] + b[..h]
  }

  /** The queued bytes one by one: the `i`-th sits `i` slots after `t`. */
  lemma QueuedAt(b: seq<Byte>, h: int, t: int)
    requires 2 <= |b| && 0 <= h < |b| && 0 <= t < |b|
    ensures |Queued(b, h, t)| == (h + |b| - t) % |b|
    ensures forall i :: 0 <= i < |Queued(b, h, t)| ==> Queued(b, h, t)[i] == b[Slot(t, i, |b|)]
  {
    ModOnce(h + |b| - t, |b|);
    var q := Queued(b, h, t);
    forall i | 0 <= i < |q|
      ensures q[i] == b[Slot(t, i, |b|)]
    {
      if t > h && i >= |b| - t {
        assert q[i] == b[..h][i - (|b| - t)];
      }
    }
  }

  /** A write of `s` that fits in the free space appends `s` to the queued bytes. */
  lemma AppendContents(b: seq<Byte>, b': array<Byte>, h: int, t: int, s: seq<Byte>)
    requires 2 <= |b| && b'.Length == |b| && 0 <= h < |b| && 0 <= t < |b|
    requires |s| + |Queued(b, h, t)| < |b|
    requires forall k :: 0 <= k < |s| ==> b'[Slot(h, k, |b|)] == s[k]
    requires forall j :: 0 <= j < |b| && !Covers(h, |s|, |b|, j) ==> b'[j] == b[j]
    ensures Queued(b'[..], Slot(h, |s|, |b|), t) == Queued(b, h, t) + s
  {
    var size := |b|;
    var h' := Slot(h, |s|, size);
    var before := Queued(b, h, t);
    var after := Queued(b'[..], h', t);
    QueuedAt(b, h, t);
    QueuedAt(b'[..], h', t);
    ModOnce(h' + size - t, size);
    assert |after| == |before| + |s|;
    forall i | 0 <= i < |after|
      ensures after[i] == (before + s)[i]
    {
      var p := Slot(t, i, size);
      assert after[i] == b'[p];
      if i < |before| {
        assert before[i] == b[p];
        assert !Covers(h, |s|, size, p);
      } else {
        assert p == Slot(h, i - |before|, size);
      }
    }
  }

  /** Moving the read cursor on by `n` queued bytes drops exactly those bytes from the front. */
  lemma DropQueued(b: seq<Byte>, h: int, t: int, n: int)
    requires 2 <= |b| && 0 <= h < |b| && 0 <= t < |b|
    requires 0 <= n <= |Queued(b, h, t)|
    ensures Queued(b, h, (t + n) % |b|) == Queued(b, h, t)[n..]
  {
    var size := |b|;
    QueuedAt(b, h, t);
    ModOnce(t + n, size);
    var t' := (t + n) % size;
    QueuedAt(b, h, t');
    ModOnce(h + size - t, size);
    ModOnce(h + size - t', size);
    var before, after := Queued(b, h, t), Queued(b, h, t');
    assert |after| == |before| - n;
    forall i | 0 <= i < |after|
      ensures after[i] == before[n + i]
    {
      assert Slot(t', i, size) == Slot(t, n + i, size);
    }
  }
}
