/**
 * The bounded pipe channel of kernel_pipe.c: a pipe control block owns a
 * circular byte buffer of PIPE_BUFFER_SIZE slots, a read cursor, a write
 * cursor, a live byte count and the identities of its reader and writer
 * ends, which become NULL when that end is closed.
 *
 * Blocking is not modelled: a byte may be stored only when the buffer is not
 * full and taken only when it is not empty, so `Write` and `Read` require the
 * room or the data they need.
 */
module Pipes {
  import opened Wrappers

  /** A C `char` as stored in the pipe buffer. */
  newtype byte = x: int | 0 <= x < 256

  /** Identity of a file control block (an `FCB*` in the source). */
  type FcbId = nat

  /** A file id (`Fid_t`). */
  type Fid = int

  /** Capacity of the ring buffer; kernel_pipe.h, which defines it, is not part of this model. */
  const PIPE_BUFFER_SIZE: int := 8192

  /** The `pipe_t` pair that `sys_Pipe` fills in. */
  datatype PipeT = PipeT(read: Fid, write: Fid)

  /** What `FCB_reserve(2, fid, fd)` hands out when it succeeds. */
  datatype Reservation = Reservation(readFid: Fid, writeFid: Fid, readFcb: FcbId, writeFcb: FcbId)

  /**
   * What `pipe_read` returns for a request of `n` bytes when `size` bytes are
   * buffered: -1 with the reader closed, 0 at end of stream, the bytes that
   * were left when the writer is closed and the buffer drains, otherwise `n`.
   */
  function ReadResult(n: nat, size: int, readerOpen: bool, writerOpen: bool): (r: int)
  {
    if !readerOpen then -1
    else if !writerOpen && size == 0 then 0
    else if !writerOpen && size < n then size
    else n
  }

  /**
   * A read on an open reader never reports more than was asked or buffered,
   * returns 0 only at end of stream or for an empty request, and otherwise
   * copies at least one byte.
   */
  lemma ReadResultBounds(n: nat, size: int, readerOpen: bool, writerOpen: bool)
    requires readerOpen && size >= 0
    requires writerOpen ==> n <= size
    ensures var r := ReadResult(n, size, readerOpen, writerOpen);
      0 <= r <= n && r <= size &&
      (r == 0 <==> n == 0 || (!writerOpen && size == 0)) &&
      (r < n <==> !writerOpen && size < n)
  {
  }

  /** The buffer is full exactly when it holds PIPE_BUFFER_SIZE - 1 bytes. */
  lemma FullIffCapacity(r: int, w: int)
    requires 0 <= r < PIPE_BUFFER_SIZE && 0 <= w < PIPE_BUFFER_SIZE
    ensures ((w + 1) % PIPE_BUFFER_SIZE == r) <==> ((w - r) % PIPE_BUFFER_SIZE == PIPE_BUFFER_SIZE - 1)
  {
  }

  /** The buffer is empty exactly when it holds no byte. */
  lemma EmptyIffNoData(r: int, w: int)
    requires 0 <= r < PIPE_BUFFER_SIZE && 0 <= w < PIPE_BUFFER_SIZE
    ensures (r % PIPE_BUFFER_SIZE == w) <==> ((w - r) % PIPE_BUFFER_SIZE == 0)
  {
  }

  /** The ring slot `k` bytes past cursor `r`. */
  function Slot(r: int, k: int): (s: int)
  {
    (r + k) % PIPE_BUFFER_SIZE
  }

  /**
   * Ring arithmetic for a store at the write cursor: the slots that hold
   * buffered bytes are not the write cursor's slot, which is the next one
   * after them, and when the buffer is not full the store adds one byte.
   */
  lemma StoreSlot(r: int, w: int)
    requires 0 <= r < PIPE_BUFFER_SIZE && 0 <= w < PIPE_BUFFER_SIZE
    ensures Slot(r, (w - r) % PIPE_BUFFER_SIZE) == w
    ensures forall k :: 0 <= k < (w - r) % PIPE_BUFFER_SIZE ==> Slot(r, k) != w
    ensures (w + 1) % PIPE_BUFFER_SIZE != r ==>
      ((w + 1) % PIPE_BUFFER_SIZE - r) % PIPE_BUFFER_SIZE == (w - r) % PIPE_BUFFER_SIZE + 1
  {
    if w < r {
      assert (w - r) % PIPE_BUFFER_SIZE == w - r + PIPE_BUFFER_SIZE;
      forall k | 0 <= k < (w - r) % PIPE_BUFFER_SIZE
        ensures Slot(r, k) != w
      {
        if r + k >= PIPE_BUFFER_SIZE {
          assert (r + k) % PIPE_BUFFER_SIZE == r + k - PIPE_BUFFER_SIZE;
        }
      }
    }
  }

  class PipeCB {
    var buffer: array<byte>
    var rPosition: int
    var wPosition: int
    var dataSize: int
    var reader: Option<FcbId>
    var writer: Option<FcbId>

    /** Set when the block has been released with `free`. */
    ghost var freed: bool

    /** The bytes written and not yet read, oldest first. */
    ghost var Contents: seq<byte>

    /**
     * The cursors stay below the capacity, the count is their distance modulo
     * the capacity, `Contents` is the stretch of the ring from the read cursor,
     * and the block is released exactly when both ends are closed.
     */
    ghost predicate Valid()
      reads this, buffer
    {
      && buffer.Length == PIPE_BUFFER_SIZE
      && 0 <= rPosition < PIPE_BUFFER_SIZE
      && 0 <= wPosition < PIPE_BUFFER_SIZE
      && dataSize == (wPosition - rPosition) % PIPE_BUFFER_SIZE
      && |Contents| == dataSize
      && (forall k :: 0 <= k < |Contents| ==> Contents[k] == buffer[Slot(rPosition, k)])
      && (freed <==> reader.None? && writer.None?)
    }

    /** The full test of `pipe_write`. */
    predicate Full()
      reads this
    {
      (wPosition + 1) % PIPE_BUFFER_SIZE == rPosition
    }

    /** The empty test of `pipe_read`. */
    predicate Empty()
      reads this
    {
      rPosition % PIPE_BUFFER_SIZE == wPosition
    }

    /** The pipe control block as `sys_Pipe` initialises it. */
    constructor (readEnd: FcbId, writeEnd: FcbId)
      ensures Valid() && fresh(buffer) && !freed
      ensures rPosition == 0 && wPosition == 0 && dataSize == 0 && Contents == []
      ensures reader == Some(readEnd) && writer == Some(writeEnd)
    {
      buffer := new byte[PIPE_BUFFER_SIZE];
      reader := Some(readEnd);
      writer := Some(writeEnd);
      rPosition := 0;
      wPosition := 0;
      dataSize := 0;
      freed := false;
      Contents := [];
    }

    /** Stores one byte at the write cursor of a buffer that is not full. */
    method StoreByte(b: byte)
      requires Valid() && !Full()
      modifies this, buffer
      ensures Valid() && buffer == old(buffer)
      ensures buffer[old(wPosition)] == b
      ensures forall i :: 0 <= i < buffer.Length && i != old(wPosition) ==> buffer[i] == old(buffer[i])
      ensures wPosition == (old(wPosition) + 1) % PIPE_BUFFER_SIZE
      ensures rPosition == old(rPosition) && dataSize == old(dataSize) + 1
      ensures Contents == old(Contents) + [b]
      ensures reader == old(reader) && writer == old(writer) && freed == old(freed)
    {
      StoreSlot(rPosition, wPosition);
      ghost var w, n := wPosition, dataSize;
      buffer[wPosition % PIPE_BUFFER_SIZE] := b;
      wPosition := (wPosition + 1) % PIPE_BUFFER_SIZE;
      dataSize := dataSize + 1;
      Contents := Contents + [b];
      assert dataSize == (wPosition - rPosition) % PIPE_BUFFER_SIZE;
      forall k | 0 <= k < |Contents|
        ensures Contents[k] == buffer[Slot(rPosition, k)]
      {
        if k < n {
          assert Slot(rPosition, k) != w;
        } else {
          assert Slot(rPosition, k) == w;
        }
      }
    }

    /** Takes the byte at the read cursor of a buffer that is not empty. */
    method TakeByte() returns (b: byte)
      requires Valid() && !Empty()
      modifies this
      ensures Valid() && buffer == old(buffer)
      ensures b == old(buffer[rPosition]) && b == old(Contents)[0]
      ensures rPosition == (old(rPosition) + 1) % PIPE_BUFFER_SIZE
      ensures wPosition == old(wPosition) && dataSize == old(dataSize) - 1
      ensures Contents == old(Contents)[1..]
      ensures reader == old(reader) && writer == old(writer) && freed == old(freed)
    {
      b := buffer[rPosition % PIPE_BUFFER_SIZE];
      rPosition := (rPosition + 1) % PIPE_BUFFER_SIZE;
      dataSize := dataSize - 1;
      Contents := Contents[1..];
    }

    /**
     * `pipe_write`: fails with -1 when either end is closed; otherwise appends
     * the first `n` bytes of `buf`, advancing the write cursor modulo the
     * capacity, and returns `n`.
     */
    method Write(buf: seq<byte>, n: nat) returns (ret: int)
      requires Valid() && !freed
      requires n <= |buf|
      requires reader.Some? && writer.Some? ==> dataSize + n <= PIPE_BUFFER_SIZE - 1
      modifies this, buffer
      ensures Valid() && !freed && reader == old(reader) && writer == old(writer)
      ensures ret == (if old(reader).None? || old(writer).None? then -1 else n)
      ensures buffer == old(buffer)
      ensures ret == -1 ==> unchanged(this) && buffer[..] == old(buffer[..])
      ensures ret != -1 ==> Contents == old(Contents) + buf[..n]
    {
      if reader.None? || writer.None? {
        return -1;
      }
      for i := 0 to n
        invariant Valid() && !freed && reader == old(reader) && writer == old(writer)
        invariant buffer == old(buffer)
        invariant dataSize == old(dataSize) + i
        invariant Contents == old(Contents) + buf[..i]
      {
        FullIffCapacity(rPosition, wPosition);
        StoreByte(buf[i]);
        if reader.None? {
          return -1;
        }
      }
      return n;
    }

    /**
     * `pipe_read`: fails with -1 when the reader is closed and returns 0 at end
     * of stream; otherwise moves the oldest bytes into `buf`, advancing the read
     * cursor modulo the capacity, and stops early only when the writer is
     * closed and the buffer has drained.
     */
    method Read(buf: array<byte>, n: nat) returns (ret: int)
      requires Valid() && !freed
      requires buf != buffer && n <= buf.Length
      requires reader.Some? && writer.Some? ==> n <= dataSize
      modifies this, buf
      ensures Valid() && !freed && reader == old(reader) && writer == old(writer) && buffer == old(buffer)
      ensures ret == ReadResult(n, old(dataSize), old(reader).Some?, old(writer).Some?)
      ensures ret <= 0 ==> unchanged(this, buf)
      ensures ret > 0 ==> Contents == old(Contents)[ret..] && buf[..ret] == old(Contents)[..ret]
      ensures ret > 0 ==> forall i :: ret <= i < buf.Length ==> buf[i] == old(buf[i])
    {
      if reader.None? {
        return -1;
      }
      if writer.None? && dataSize == 0 {
        return 0;
      }
      for i := 0 to n
        invariant Valid() && !freed && reader == old(reader) && writer == old(writer)
        invariant buffer == old(buffer)
        invariant dataSize == old(dataSize) - i
        invariant writer.None? ==> dataSize > 0
        invariant i == 0 ==> unchanged(this) && unchanged(buf)
        invariant Contents == old(Contents)[i..]
        invariant forall j :: 0 <= j < i ==> buf[j] == old(Contents)[j]
        invariant forall j :: i <= j < buf.Length ==> buf[j] == old(buf[j])
      {
        EmptyIffNoData(rPosition, wPosition);
        var b := TakeByte();
        buf[i] := b;
        if writer.None? && dataSize <= 0 {
          return i + 1;
        }
      }
      return n;
    }
  }

  /**
   * `pipe_writer_close`: -1 for a NULL block; otherwise marks the writer end
   * closed, leaves the reader end and the buffered bytes alone, releases the
   * block when the reader end was already closed, and returns 0.
   */
  method WriterClose(p: PipeCB?) returns (ret: int)
    requires p != null ==> p.Valid()
    modifies p
    ensures p == null ==> ret == -1
    ensures p != null ==> ret == 0 && p.Valid() && p.writer == None && p.reader == old(p.reader) && p.buffer == old(p.buffer)
    ensures p != null ==> p.freed == old(p.reader).None?
    ensures p != null ==> p.Contents == old(p.Contents) && p.rPosition == old(p.rPosition) && p.wPosition == old(p.wPosition)
  {
    if p == null {
      return -1;
    }
    p.writer := None;
    if p.reader.None? {
      p.freed := true;
    }
    return 0;
  }

  /**
   * `pipe_reader_close`: -1 for a NULL block; otherwise marks the reader end
   * closed, leaves the writer end and the buffered bytes alone, releases the
   * block when the writer end was already closed, and returns 0.
   */
  method ReaderClose(p: PipeCB?) returns (ret: int)
    requires p != null ==> p.Valid()
    modifies p
    ensures p == null ==> ret == -1
    ensures p != null ==> ret == 0 && p.Valid() && p.reader == None && p.writer == old(p.writer) && p.buffer == old(p.buffer)
    ensures p != null ==> p.freed == old(p.writer).None?
    ensures p != null ==> p.Contents == old(p.Contents) && p.rPosition == old(p.rPosition) && p.wPosition == old(p.wPosition)
  {
    if p == null {
      return -1;
    }
    p.reader := None;
    if p.writer.None? {
      p.freed := true;
    }
    return 0;
  }

  /**
   * `p` after its reader end (when `reader`) and its writer end (when
   * `writer`) have been closed: still well formed with its buffered bytes,
   * every other end as it was, and released exactly when no end is left open.
   */
  twostate predicate EndsClosed(p: PipeCB, reader: bool, writer: bool)
    reads p, p.buffer
  {
    && p.Valid() && p.buffer == old(p.buffer) && p.Contents == old(p.Contents)
    && p.reader == (if reader then None else old(p.reader))
    && p.writer == (if writer then None else old(p.writer))
    && p.freed == ((reader || old(p.reader).None?) && (writer || old(p.writer).None?))
  }

  /**
   * `sys_Pipe`: -1 when no pair of file ids can be reserved; otherwise a new
   * empty pipe whose reader and writer ends are the two reserved FCBs, and 0.
   */
  method SysPipe(reserved: Option<Reservation>) returns (ret: int, pipe: PipeT, cb: PipeCB?)
    ensures reserved.None? ==> ret == -1 && cb == null
    ensures reserved.Some? ==> ret == 0 && cb != null && fresh(cb) && fresh(cb.buffer)
    ensures reserved.Some? ==> pipe == PipeT(reserved.value.readFid, reserved.value.writeFid)
    ensures reserved.Some? ==> cb.Valid() && !cb.freed && cb.Contents == []
    ensures reserved.Some? ==> cb.rPosition == 0 && cb.wPosition == 0 && cb.dataSize == 0
    ensures reserved.Some? ==> cb.reader == Some(reserved.value.readFcb) && cb.writer == Some(reserved.value.writeFcb)
  {
    pipe := PipeT(-1, -1);
    if reserved.None? {
      return -1, pipe, null;
    }
    var r := reserved.value;
    cb := new PipeCB(r.readFcb, r.writeFcb);
    pipe := PipeT(r.readFid, r.writeFid);
    ret := 0;
  }

  /** A new pipe with `data` written into it and both ends still open. */
  method Filled(data: seq<byte>) returns (p: PipeCB)
    requires |data| <= PIPE_BUFFER_SIZE - 1
    ensures fresh(p) && fresh(p.buffer) && p.Valid() && !p.freed
    ensures p.reader.Some? && p.writer.Some? && p.Contents == data && p.dataSize == |data|
  {
    var _, _, cb := SysPipe(Some(Reservation(0, 1, 0, 1)));
    p := cb;
    var w := p.Write(data, |data|);
    assert data[..|data|] == data;
  }

  /**
   * Bytes come out of a pipe in the order they went in, however the reads
   * are chunked: `data` written at once and read back as `k` bytes followed
   * by the rest.
   */
  method ChunkedRoundTrip(data: seq<byte>, k: nat) returns (got: seq<byte>)
    requires |data| <= PIPE_BUFFER_SIZE - 1 && k <= |data|
    ensures got == data
  {
    var p := Filled(data);
    var first := new byte[k];
    var r1 := p.Read(first, k);
    if k > 0 {
      assert first[..] == first[..k] == data[..k];
    }
    var second := new byte[|data| - k];
    var r2 := p.Read(second, |data| - k);
    if r2 > 0 {
      assert second[..] == second[..r2] == data[k..];
    }
    got := first[..] + second[..];
    assert got == data[..k] + data[k..];
  }

  /**
   * Half-close: with the writer closed, a reader asking for more than is
   * buffered gets what is left, then end of stream (0), and a later write
   * fails with -1.
   */
  method DrainAfterWriterClose(data: seq<byte>, extra: nat) returns (first: int, got: seq<byte>, second: int, late: int)
    requires 0 < |data| <= PIPE_BUFFER_SIZE - 1
    ensures first == |data| && got == data && second == 0 && late == -1
  {
    var _, _, p := SysPipe(Some(Reservation(3, 4, 7, 8)));
    var w := p.Write(data, |data|);
    var c := WriterClose(p);
    var buf := new byte[|data| + extra];
    first := p.Read(buf, |data| + extra);
    got := buf[..|data|];
    second := p.Read(buf, 1);
    late := p.Write(data, |data|);
  }
}
