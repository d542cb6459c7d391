/** The pipe of kernel/pipes.c: a ring buffer, two wait queues, and copies that go straight from
    a writer to a blocked reader.  Each call is one section under the pipe's lock, and is proved
    to do to the byte stream what `PipeStreams` says. */
module Pipes {
  import opened WaitQueues
  import opened PipeStreams

  // ---------------------------------------------------------------- ring arithmetic

  function Wrap(i: nat, size: nat): nat { if i >= size then i - size else i }

  /** `len` bytes of a ring, from position `start` on. */
  function Ring(buf: seq<Byte>, start: nat, len: nat): (r: seq<Byte>)
    requires start <= |buf| && len <= |buf|
    ensures |r| == len
  {
    if start + len <= |buf| then buf[start..start + len]
    else buf[start..] + buf[..start + len - |buf|]
  }

  /** Writing a chunk at the end of the used part, without wrapping inside the chunk. */
  lemma {:induction false} RingAppend(buf: seq<Byte>, start: nat, len: nat, at: nat, chunk: seq<Byte>)
    requires start < |buf| && len + |chunk| <= |buf|
    requires at == Wrap(start + len, |buf|) && at + |chunk| <= |buf|
    ensures Ring(buf[..at] + chunk + buf[at + |chunk|..], start, len + |chunk|) == Ring(buf, start, len) + chunk
  {
    if start + len < |buf| {
      SpliceIn(buf, start, at, chunk);
    } else {
      SpliceAround(buf, start, at, chunk);
      assert buf[start..] + (buf[..at] + chunk) == (buf[start..] + buf[..at]) + chunk;
      assert start + len == |buf| ==> buf[start..] + buf[..at] == buf[start..start + len];
    }
  }

  lemma {:induction false} SpliceIn(buf: seq<Byte>, start: nat, at: nat, chunk: seq<Byte>)
    requires start <= at && at + |chunk| <= |buf|
    ensures (buf[..at] + chunk + buf[at + |chunk|..])[start..at + |chunk|] == buf[start..at] + chunk
  {
  }

  lemma {:induction false} SpliceAround(buf: seq<Byte>, start: nat, at: nat, chunk: seq<Byte>)
    requires at + |chunk| <= start <= |buf|
    ensures var b := buf[..at] + chunk + buf[at + |chunk|..];
      |b| == |buf| && b[start..] == buf[start..] && b[..at + |chunk|] == buf[..at] + chunk
  {
  }

  /** Dropping from the front of the used part. */
  lemma {:induction false} RingDrop(buf: seq<Byte>, start: nat, len: nat, n: nat)
    requires start < |buf| && n <= len <= |buf|
    ensures Ring(buf, Wrap(start + n, |buf|), len - n) == Ring(buf, start, len)[n..]
    ensures start + n <= |buf| ==> buf[start..start + n] == Ring(buf, start, len)[..n]
  {
    if start + len <= |buf| {
      assert buf[start..start + len][n..] == buf[start + n..start + len];
      assert n < len ==> start + n < |buf|;
    } else if start + n < |buf| {
      DropFrom(buf[start..], buf[..start + len - |buf|], n);
      assert buf[start..][n..] == buf[start + n..];
    } else {
      DropFrom(buf[start..], buf[..start + len - |buf|], n);
      assert buf[..start + len - |buf|][start + n - |buf|..] == buf[start + n - |buf|..start + len - |buf|];
    }
  }

  // ---------------------------------------------------------------- descriptors of the buffer

  /** A descriptor that points into the pipe's buffer. */
  datatype Seg = Seg(at: nat, len: nat)

  /** pipe_buffer_list_populate(): one descriptor, or two if the range wraps. */
  function Segments(start: nat, end: nat, size: nat): (segs: seq<Seg>)
    requires start < size && end < size
  {
    if start < end then [Seg(start, end - start)] else [Seg(start, size - start), Seg(0, end)]
  }

  function SegRoom(segs: seq<Seg>): nat { if segs == [] then 0 else segs[0].len + SegRoom(segs[1..]) }

  /** The descriptors follow each other round the ring, starting at `pos`. */
  predicate Fits(segs: seq<Seg>, pos: nat, size: nat)
    decreases segs
  {
    segs == [] || (segs[0].at == pos && pos + segs[0].len <= size && Fits(segs[1..], Wrap(pos + segs[0].len, size), size))
  }

  lemma {:induction false} SegmentsFit(start: nat, end: nat, size: nat)
    requires start < size && end < size
    ensures Fits(Segments(start, end, size), start, size)
    ensures SegRoom(Segments(start, end, size)) == if start < end then end - start else size - start + end
  {
    var segs := Segments(start, end, size);
    if start < end {
      assert segs[1..] == [];
    } else {
      assert segs[1..] == [Seg(0, end)] && segs[1..][1..] == [];
      assert SegRoom(segs[1..]) == end;
    }
  }

  function SegsAfter(segs: seq<Seg>, n: nat): (r: seq<Seg>)
    requires segs != [] && n <= segs[0].len
  {
    if n == segs[0].len then segs[1..] else [Seg(segs[0].at + n, segs[0].len - n)] + segs[1..]
  }

  lemma {:induction false} SegsAdvance(segs: seq<Seg>, pos: nat, size: nat, n: nat)
    requires segs != [] && n <= segs[0].len && Fits(segs, pos, size) && pos < size
    ensures pos + n <= size && Fits(SegsAfter(segs, n), Wrap(pos + n, size), size)
    ensures SegRoom(SegsAfter(segs, n)) == SegRoom(segs) - n
  {
    if n < segs[0].len {
      assert SegsAfter(segs, n)[1..] == segs[1..];
    }
  }

  // ---------------------------------------------------------------- bookkeeping for the copy loop

  /** Sending n bytes from descriptor i, the ones before it being empty. */
  lemma {:induction false} DrainAt(ws: seq<Writer>, i: nat, n: nat, m: nat)
    requires i < |ws| && n <= |ws[i].want.data| && n <= m
    requires forall k | 0 <= k < i :: ws[k].want.data == []
    ensures var us := ws[i := Send(ws[i], n)];
      Drain(ws, m) == Drain(us, m - n) && Flat(ws) == ws[i].want.data[..n] + Flat(us)
    decreases i
  {
    hide Drain, Flat, Send;
    var us := ws[i := Send(ws[i], n)];
    if i == 0 {
      DrainFirst(ws, n, m);
    } else {
      var rest := ws[1..];
      assert us[0] == ws[0] && us[1..] == rest[i - 1 := Send(rest[i - 1], n)];
      assert forall k | 0 <= k < i - 1 :: rest[k] == ws[k + 1];
      DrainAt(rest, i - 1, n, m);
      NothingFirst(ws, m);
      NothingFirst(us, m - n);
    }
  }

  lemma {:induction false} DrainFirst(ws: seq<Writer>, n: nat, m: nat)
    requires ws != [] && n <= |ws[0].want.data| && n <= m
    ensures var us := ws[0 := Send(ws[0], n)];
      Drain(ws, m) == Drain(us, m - n) && Flat(ws) == ws[0].want.data[..n] + Flat(us)
  {
    var us, d := ws[0 := Send(ws[0], n)], ws[0].want.data;
    assert us[1..] == ws[1..];
    assert d == d[..n] + d[n..];
    assert d[..n] + (d[n..] + Flat(ws[1..])) == (d[..n] + d[n..]) + Flat(ws[1..]);
    if m < |d| { assert d[m..] == d[n..][m - n..]; }
  }

  lemma {:induction false} NothingFirst(ws: seq<Writer>, m: nat)
    requires ws != [] && ws[0].want.data == []
    ensures Drain(ws, m) == [ws[0]] + Drain(ws[1..], m) && Flat(ws) == Flat(ws[1..])
  {
    assert Send(ws[0], 0) == ws[0];
  }

  lemma {:induction false} FlatEmpty(ws: seq<Writer>)
    requires forall k | 0 <= k < |ws| :: ws[k].want.data == []
    ensures Flat(ws) == []
    decreases ws
  {
    if ws != [] { FlatEmpty(ws[1..]); }
  }

  /** Receiving n bytes at descriptor i, the ones before it being satisfied. */
  lemma {:induction false} FeedAt(rs: seq<Reader>, i: nat, bytes: seq<Byte>, n: nat)
    requires i < |rs| && n <= rs[i].want.left && n <= |bytes|
    requires forall k | 0 <= k < i :: rs[k].want.left == 0
    ensures var us := rs[i := Receive(rs[i], bytes[..n])];
      Feed(rs, bytes) == Feed(us, bytes[n..]) && Wants(rs) == n + Wants(us)
    decreases i
  {
    var us := rs[i := Receive(rs[i], bytes[..n])];
    if i == 0 {
      assert us[1..] == rs[1..];
      var t := Min(rs[0].want.left, |bytes|);
      var u := Min(us[0].want.left, |bytes[n..]|);
      assert t == n + u && bytes[n..][u..] == bytes[t..];
      assert rs[0].want.got + bytes[..t] == (rs[0].want.got + bytes[..n]) + bytes[n..][..u];
    } else {
      assert us[1..] == rs[1..][i - 1 := Receive(rs[1..][i - 1], bytes[..n])];
      assert rs[0].want.got + [] == rs[0].want.got;
      FeedAt(rs[1..], i - 1, bytes, n);
    }
  }

  lemma {:induction false} FeedFull(rs: seq<Reader>, bytes: seq<Byte>)
    requires forall k | 0 <= k < |rs| :: rs[k].want.left == 0
    ensures Feed(rs, bytes) == rs && Wants(rs) == 0
    decreases rs
  {
    if rs != [] {
      FeedFull(rs[1..], bytes);
      assert rs[0].want.got + [] == rs[0].want.got;
    }
  }

  /** Where the copy loop stands: m bytes out of `total` moved, sources before si and readers
      before di used up, and room for `room` bytes in the buffer. */
  ghost predicate Copying(srcs: seq<Writer>, rds: seq<Reader>, total: nat, m: nat,
                          ss: seq<Writer>, si: nat, rd: seq<Reader>, di: nat, room: nat)
  {
    && m <= total <= |Flat(srcs)| && si <= |ss| && di <= |rd|
    && Drain(ss, total - m) == Drain(srcs, total)
    && Flat(ss) == Flat(srcs)[m..]
    && (forall k | 0 <= k < si :: ss[k].want.data == [])
    && (forall k | 0 <= k < di :: rd[k].want.left == 0)
    && Feed(rd, Flat(srcs)[m..total]) == Feed(rds, Flat(srcs)[..total])
    && Wants(rd) == Wants(rds) - Min(m, Wants(rds))
    && total - m == Min(|Flat(ss)|, Wants(rd) + room)
  }

  lemma {:induction false} CopyStarts(srcs: seq<Writer>, rds: seq<Reader>, room: nat)
    ensures Copying(srcs, rds, Min(|Flat(srcs)|, Wants(rds) + room), 0, srcs, 0, rds, 0, room)
  {
    hide Flat, Drain, Feed, Wants;
    var total := Min(|Flat(srcs)|, Wants(rds) + room);
    assert Flat(srcs)[0..] == Flat(srcs) && Flat(srcs)[0..total] == Flat(srcs)[..total];
  }

  /** n bytes from source si to reader di. */
  lemma {:induction false} CopyToReader(srcs: seq<Writer>, rds: seq<Reader>, total: nat, m: nat,
                                        ss: seq<Writer>, si: nat, rd: seq<Reader>, di: nat, room: nat, n: nat)
    requires Copying(srcs, rds, total, m, ss, si, rd, di, room) && si < |ss| && di < |rd|
    requires n == Min(rd[di].want.left, |ss[si].want.data|) && m <= Wants(rds)
    ensures var s2 := ss[si := Send(ss[si], n)]; var r2 := rd[di := Receive(rd[di], ss[si].want.data[..n])];
      && m + n <= Wants(rds) && m + n <= total
      && Copying(srcs, rds, total, m + n, s2, if s2[si].want.data == [] then si + 1 else si,
                 r2, if r2[di].want.left == 0 then di + 1 else di, room)
  {
    hide Flat, Drain, Feed, Wants;
    var all := Flat(srcs);
    var s2, r2 := ss[si := Send(ss[si], n)], rd[di := Receive(rd[di], ss[si].want.data[..n])];
    WantsAt(rd, di);
    DrainAt(ss, si, n, n);
    assert n <= total - m;
    DrainAt(ss, si, n, total - m);
    SliceAhead(all, Flat(ss), m, ss[si].want.data[..n], Flat(s2), total);
    FeedAt(rd, di, all[m..total], n);
    assert r2 == rd[di := Receive(rd[di], all[m..total][..n])];
  }

  /** n bytes from source si to the buffer, all readers on the list being satisfied. */
  lemma {:induction false} CopyToBuffer(srcs: seq<Writer>, rds: seq<Reader>, total: nat, m: nat,
                                        ss: seq<Writer>, si: nat, rd: seq<Reader>, di: nat, room: nat, n: nat)
    requires Copying(srcs, rds, total, m, ss, si, rd, di, room) && si < |ss| && di == |rd|
    requires n <= room && n <= |ss[si].want.data|
    ensures var s2 := ss[si := Send(ss[si], n)];
      && Wants(rds) <= m && m + n <= total && ss[si].want.data[..n] == Flat(srcs)[m..m + n]
      && Copying(srcs, rds, total, m + n, s2, if s2[si].want.data == [] then si + 1 else si, rd, di, room - n)
  {
    hide Flat, Drain, Feed, Wants;
    var all := Flat(srcs);
    var s2 := ss[si := Send(ss[si], n)];
    FeedFull(rd, all[m..total]);
    DrainAt(ss, si, n, n);
    assert n <= total - m;
    DrainAt(ss, si, n, total - m);
    SliceAhead(all, Flat(ss), m, ss[si].want.data[..n], Flat(s2), total);
    FeedFull(rd, all[m + n..total]);
  }

  lemma {:induction false} SliceAhead(all: seq<Byte>, rest: seq<Byte>, m: nat, chunk: seq<Byte>, after: seq<Byte>, total: nat)
    requires m + |chunk| <= total <= |all| && rest == all[m..] && rest == chunk + after
    ensures all[m..m + |chunk|] == chunk && all[m + |chunk|..] == after
    ensures all[m..total][..|chunk|] == chunk && all[m..total][|chunk|..] == all[m + |chunk|..total]
  {
    assert all[m..m + |chunk|] == rest[..|chunk|];
  }

  lemma {:induction false} WantsAt(rs: seq<Reader>, i: nat)
    requires i < |rs|
    ensures rs[i].want.left <= Wants(rs)
    decreases rs
  {
    if i > 0 { WantsAt(rs[1..], i - 1); }
  }

  /** When the loop stops, everything that could move has moved. */
  lemma {:induction false} CopyStops(srcs: seq<Writer>, rds: seq<Reader>, total: nat, m: nat,
                                     ss: seq<Writer>, si: nat, rd: seq<Reader>, di: nat, room: nat)
    requires Copying(srcs, rds, total, m, ss, si, rd, di, room)
    requires si == |ss| || (di == |rd| && room == 0)
    ensures m == total && ss == Drain(srcs, total) && rd == Feed(rds, Flat(srcs)[..total])
  {
    hide Flat, Drain, Feed, Wants;
    if si == |ss| { FlatEmpty(ss); } else { FeedFull(rd, []); }
    assert m == total;
    DrainNone(ss);
    assert Flat(srcs)[m..total] == [];
    FeedRest(rd);
  }

  lemma {:induction false} SliceOneMore(before: seq<Byte>, all: seq<Byte>, w: nat, m: nat, n: nat)
    requires m + n <= |all|
    ensures w <= m ==> (before + all[Min(m, w)..m]) + all[m..m + n] == before + all[Min(m + n, w)..m + n]
    ensures m + n <= w ==> before + all[Min(m, w)..m] == before + all[Min(m + n, w)..m + n]
  {
    if w <= m { assert all[w..m] + all[m..m + n] == all[w..m + n]; }
  }

  lemma {:induction false} SegsRoom(segs: seq<Seg>)
    ensures if segs == [] then SegRoom(segs) == 0 else segs[0].len <= SegRoom(segs)
  {
  }

  function VisitedReaders(rs: seq<Reader>, n: int): (k: nat)
    ensures k <= |rs|
  {
    if rs == [] then 0
    else if rs[0].want.left >= n then 1
    else 1 + VisitedReaders(rs[1..], n - rs[0].want.left)
  }

  lemma {:induction false} VisitedReadersEnough(rs: seq<Reader>, n: int)
    ensures VisitedReaders(rs, n) == |rs| || n <= Wants(rs[..VisitedReaders(rs, n)])
    decreases rs
  {
    if rs != [] {
      var k := VisitedReaders(rs, n);
      assert rs[..k][0] == rs[0] && rs[..k][1..] == rs[1..][..k - 1];
      if rs[0].want.left < n { VisitedReadersEnough(rs[1..], n - rs[0].want.left); }
    }
  }

  lemma {:induction false} FeedNothing(rs: seq<Reader>)
    requires forall r | r in rs :: r.want.left > 0
    ensures Feed(rs, []) == rs && Hungry(rs) == rs && Sated(rs) == []
    decreases rs
  {
    if rs != [] {
      FeedNothing(rs[1..]);
      assert rs[0].want.got + [] == rs[0].want.got;
    }
  }

  lemma {:induction false} FeedSplit(rs: seq<Reader>, k: nat, bytes: seq<Byte>)
    requires forall r | r in rs :: r.want.left > 0
    requires k <= |rs| && (k == |rs| || |bytes| <= Wants(rs[..k]))
    ensures Feed(rs, bytes) == Feed(rs[..k], bytes) + rs[k..]
    ensures Min(Wants(rs[..k]), |bytes|) == Min(Wants(rs), |bytes|)
    decreases k
  {
    if k == 0 {
      if rs != [] { FeedNothing(rs); }
    } else {
      assert rs[..k][0] == rs[0] && rs[..k][1..] == rs[1..][..k - 1] && rs[k..] == rs[1..][k - 1..];
      FeedSplit(rs[1..], k - 1, bytes[Min(rs[0].want.left, |bytes|)..]);
    }
  }

  lemma {:induction false} HungryConcat(x: seq<Reader>, y: seq<Reader>)
    ensures Hungry(x + y) == Hungry(x) + Hungry(y) && Sated(x + y) == Sated(x) + Sated(y)
    decreases x
  {
    if x == [] {
      assert x + y == y;
    } else {
      assert (x + y)[0] == x[0] && (x + y)[1..] == x[1..] + y;
      HungryConcat(x[1..], y);
    }
  }

  /** Feeding the readers on the list is feeding the whole queue. */
  lemma {:induction false} FeedPrefix(rs: seq<Reader>, k: nat, bytes: seq<Byte>)
    requires forall r | r in rs :: r.want.left > 0
    requires k <= |rs| && (k == |rs| || |bytes| <= Wants(rs[..k]))
    ensures Hungry(Feed(rs[..k], bytes)) + rs[k..] == Hungry(Feed(rs, bytes))
    ensures Sated(Feed(rs[..k], bytes)) == Sated(Feed(rs, bytes))
    ensures Min(Wants(rs[..k]), |bytes|) == Min(Wants(rs), |bytes|)
  {
    hide Feed, Hungry, Sated;
    FeedSplit(rs, k, bytes);
    HungryConcat(Feed(rs[..k], bytes), rs[k..]);
    FeedNothing(rs[k..]);
  }

  // ---------------------------------------------------------------- the pipe

  class Pipe {
    const size: nat
    const buffer: array<Byte>
    var bytesUsed: nat
    var readIndex: nat
    var writeIndex: nat
    var writers: seq<Writer>
    var readers: seq<Reader>

    ghost predicate Valid()
      reads this`bytesUsed, this`readIndex, this`writeIndex
    {
      && buffer.Length == size && bytesUsed <= size
      && (size > 0 ==> readIndex < size && writeIndex == Wrap(readIndex + bytesUsed, size))
      && (size == 0 ==> readIndex == writeIndex == 0)
    }

    ghost function Contents(): (c: seq<Byte>)
      requires Valid()
      reads this`bytesUsed, this`readIndex, this`writeIndex, buffer
      ensures |c| == bytesUsed
    {
      Ring(buffer[..], readIndex, bytesUsed)
    }

    ghost function View(): State
      requires Valid()
      reads this, buffer
    {
      State(size, Contents(), writers, readers)
    }

    /** k_pipe_init() */
    constructor (size: nat)
      ensures Valid() && fresh(buffer) && View() == State(size, [], [], []) && Inv(View())
    {
      this.size := size;
      buffer := new Byte[size];
      bytesUsed, readIndex, writeIndex := 0, 0, 0;
      writers, readers := [], [];
    }

    /** z_impl_k_pipe_read_avail() */
    method ReadAvail() returns (n: nat)
      requires Valid()
      ensures n == bytesUsed
    {
      if size == 0 { return 0; }
      if readIndex == writeIndex {
        n := bytesUsed;
      } else if readIndex < writeIndex {
        n := writeIndex - readIndex;
      } else {
        n := size - (readIndex - writeIndex);
      }
    }

    /** z_impl_k_pipe_write_avail() */
    method WriteAvail() returns (n: nat)
      requires Valid()
      ensures n == size - bytesUsed
    {
      if size == 0 { return 0; }
      if writeIndex == readIndex {
        n := size - bytesUsed;
      } else if writeIndex < readIndex {
        n := readIndex - writeIndex;
      } else {
        n := size - (writeIndex - readIndex);
      }
    }

    /** pipe_waiter_list_populate() over the writers */
    method PopulateWriters(n: nat) returns (k: nat, avail: nat)
      ensures k == Visited(writers, n) && avail == |Flat(writers[..k])|
    {
      k, avail := 0, 0;
      while k < |writers|
        invariant k <= |writers| && avail == |Flat(writers[..k])|
        invariant k == 0 || avail < n
        invariant Visited(writers, n) == k + Visited(writers[k..], n - avail)
      {
        ghost var rest := writers[k..];
        assert rest[1..] == writers[k + 1..];
        assert writers[..k + 1] == writers[..k] + [writers[k]];
        FlatConcat(writers[..k], [writers[k]]);
        FlatOne(writers[k]);
        avail := avail + |writers[k].want.data|;
        k := k + 1;
        if avail >= n { return; }
      }
    }

    /** pipe_waiter_list_populate() over the readers */
    method PopulateReaders(n: nat) returns (k: nat, avail: nat)
      ensures k == VisitedReaders(readers, n) && avail == Wants(readers[..k])
    {
      k, avail := 0, 0;
      while k < |readers|
        invariant k <= |readers| && avail == Wants(readers[..k])
        invariant k == 0 || avail < n
        invariant VisitedReaders(readers, n) == k + VisitedReaders(readers[k..], n - avail)
      {
        ghost var rest := readers[k..];
        assert rest[1..] == readers[k + 1..];
        assert readers[..k + 1] == readers[..k] + [readers[k]];
        WantsConcat(readers[..k], readers[k]);
        avail := avail + readers[k].want.left;
        k := k + 1;
        if avail >= n { return; }
      }
    }

    /** memcpy() into the buffer at the write index, and the index arithmetic that follows it. */
    method CopyIn(chunk: seq<Byte>)
      requires Valid() && size > 0 && bytesUsed + |chunk| <= size && writeIndex + |chunk| <= size
      modifies this`bytesUsed, this`writeIndex, buffer
      ensures Valid()
      ensures Contents() == old(Contents()) + chunk && bytesUsed == old(bytesUsed) + |chunk|
      ensures writeIndex == Wrap(old(writeIndex) + |chunk|, size)
    {
      hide Ring;
      RingAppend(buffer[..], readIndex, bytesUsed, writeIndex, chunk);
      Store(buffer, writeIndex, chunk);
      bytesUsed := bytesUsed + |chunk|;
      writeIndex := writeIndex + |chunk|;
      if writeIndex >= size { writeIndex := writeIndex - size; }
    }

    /** Whether the free part of the buffer can take the descriptors `segs`. */
    ghost predicate Takes(segs: seq<Seg>)
      reads this`bytesUsed, this`writeIndex
    {
      segs != [] ==> 0 < size && Fits(segs, writeIndex, size) && bytesUsed + SegRoom(segs) <= size
    }

    /** pipe_write(): copies from the sources, in order, to the readers on the list and then to
        the free part of the buffer, until one side is used up. */
    method PipeWrite(srcs: seq<Writer>, rds: seq<Reader>, segs: seq<Seg>)
      returns (ss: seq<Writer>, rd: seq<Reader>, written: nat)
      requires Valid() && Takes(segs)
      modifies this`bytesUsed, this`writeIndex, buffer
      ensures Valid()
      ensures written == Min(|Flat(srcs)|, Wants(rds) + SegRoom(segs))
      ensures ss == Drain(srcs, written)
      ensures rd == Feed(rds, Flat(srcs)[..written])
      ensures Contents() == old(Contents()) + Flat(srcs)[Min(written, Wants(rds))..written]
      ensures bytesUsed == old(bytesUsed) + written - Min(written, Wants(rds))
    {
      hide Flat, Drain, Feed, Wants, Contents, Copying, Takes, SegRoom;
      ghost var total := Min(|Flat(srcs)|, Wants(rds) + SegRoom(segs));
      CopyStarts(srcs, rds, SegRoom(segs));
      ss, rd, written := srcs, rds, 0;
      var sg := segs;
      var si, di := 0, 0;
      assert Contents() + Flat(srcs)[0..0] == Contents();
      while si < |ss| && (di < |rd| || sg != [])
        invariant Valid() && Takes(sg) && si <= |ss| && di <= |rd| && written <= total <= |Flat(srcs)|
        invariant Copying(srcs, rds, total, written, ss, si, rd, di, SegRoom(sg))
        invariant di < |rd| ==> written <= Wants(rds)
        invariant Contents() == old(Contents()) + Flat(srcs)[Min(written, Wants(rds))..written]
        invariant bytesUsed == old(bytesUsed) + written - Min(written, Wants(rds))
        decreases |ss| - si, |rd| - di, |sg|
      {
        ghost var before := Contents();
        var n;
        if di < |rd| {
          n := Min(rd[di].want.left, |ss[si].want.data|);
          CopyToReader(srcs, rds, total, written, ss, si, rd, di, SegRoom(sg), n);
          rd := rd[di := Receive(rd[di], ss[si].want.data[..n])];
          if rd[di].want.left == 0 { di := di + 1; }
        } else {
          n := Min(sg[0].len, |ss[si].want.data|);
          SegsRoom(sg);
          CopyToBuffer(srcs, rds, total, written, ss, si, rd, di, SegRoom(sg), n);
          sg := CopySegment(sg, ss[si].want.data[..n]);
        }
        SliceOneMore(old(Contents()), Flat(srcs), Wants(rds), written, n);
        ss := ss[si := Send(ss[si], n)];
        if ss[si].want.data == [] { si := si + 1; }
        written := written + n;
      }
      SegsRoom(sg);
      CopyStops(srcs, rds, total, written, ss, si, rd, di, SegRoom(sg));
    }

    /** A copy into the first descriptor of the buffer. */
    method CopySegment(sg: seq<Seg>, chunk: seq<Byte>) returns (rest: seq<Seg>)
      requires Valid() && sg != [] && Takes(sg) && |chunk| <= sg[0].len
      modifies this`bytesUsed, this`writeIndex, buffer
      ensures Valid() && Takes(rest)
      ensures rest == SegsAfter(sg, |chunk|) && SegRoom(rest) == SegRoom(sg) - |chunk|
      ensures Contents() == old(Contents()) + chunk
      ensures bytesUsed == old(bytesUsed) + |chunk|
    {
      hide Contents;
      SegsRoom(sg);
      SegsAdvance(sg, writeIndex, size, |chunk|);
      rest := SegsAfter(sg, |chunk|);
      CopyIn(chunk);
    }

    /** The copying part of a put: waiting readers first, then the buffer. */
    method PutBytes(me: Writer, k: nat, segs: seq<Seg>) returns (written: nat, left: Writer, woken: seq<Tid>)
      requires Valid() && Inv(View()) && Takes(segs) && SegRoom(segs) == size - bytesUsed
      requires k == VisitedReaders(readers, |me.want.data|) && me.want.min <= |me.want.data|
      modifies this`bytesUsed, this`writeIndex, this`readers, buffer
      ensures Valid() && View() == Given(old(View()), me.want.data)
      ensures written == GivenCount(old(View()), me.want.data) && left == Send(me, written)
      ensures woken == Tids(Sated(Feed(old(readers), me.want.data)))
    {
      hide Flat, Drain, Feed, Wants, Contents, Sated, Hungry, Given, GivenCount, Inv, Tids, VisitedReaders, SegRoom;
      FlatOne(me);
      PutMatches(View(), me, k, Min(|me.want.data|, Wants(readers[..k]) + (size - bytesUsed)));
      var ss, rd, n := PipeWrite([me], readers[..k], segs);
      readers := Hungry(rd) + readers[k..];
      written, left, woken := n, ss[0], Tids(Sated(rd));
    }

    /** z_impl_k_pipe_put() */
    method Put(tid: Tid, prio: int, data: seq<Byte>, min: nat, noWait: bool) returns (r: Result)
      requires Valid() && Inv(View())
      modifies this, buffer
      ensures Valid()
      ensures Outcome(View(), r) == DoPut(old(View()), Op.Put(tid, prio, data, min, noWait))
    {
      hide Flat, Drain, Feed, Wants, Contents, Ring, Sated, Hungry, Given, GivenCount, Inv, Tids, Enqueue;
      if min > |data| { return Refused(-EINVAL); }
      var k, canWrite := PopulateReaders(|data|);
      var segs: seq<Seg> := [];
      SegsRoom(segs);
      if bytesUsed != size {
        FreeSegments(readIndex, bytesUsed, size);
        segs := Segments(writeIndex, readIndex, size);
        canWrite := canWrite + (size - bytesUsed);
      }
      hide Segments, Fits, SegRoom, VisitedReaders;
      var me := Waiter(tid, prio, Offer(data, |data|, min));
      PutMatches(View(), me, k, Min(|data|, Wants(readers[..k]) + (size - bytesUsed)));
      assert |View().buf| == bytesUsed;
      if canWrite < min && noWait { return Refused(-EIO); }

      var written, left, woken := PutBytes(me, k, segs);
      if written == |data| || noWait || (written >= min && min > 0) {
        return Returned(data[..written], woken);
      }
      writers := Enqueue(writers, left);
      r := Pending(data[..written], woken);
    }

    /** memcpy() out of the buffer at the read index, and the index arithmetic that follows it. */
    method CopyOut(n: nat) returns (chunk: seq<Byte>)
      requires Valid() && size > 0 && n <= bytesUsed && readIndex + n <= size
      modifies this`bytesUsed, this`readIndex
      ensures Valid()
      ensures chunk == old(Contents())[..n] && Contents() == old(Contents())[n..]
      ensures bytesUsed == old(bytesUsed) - n && readIndex == Wrap(old(readIndex) + n, size)
    {
      RingDrop(buffer[..], readIndex, bytesUsed, n);
      chunk := buffer[readIndex..readIndex + n];
      bytesUsed := bytesUsed - n;
      readIndex := readIndex + n;
      if readIndex >= size { readIndex := readIndex - size; }
    }

    /** First part of pipe_get_internal(): bytes out of the buffer. */
    method TakeFromBuffer(n: nat) returns (data: seq<Byte>)
      requires Valid()
      modifies this`bytesUsed, this`readIndex
      ensures Valid()
      ensures data == old(Contents())[..Min(n, old(bytesUsed))]
      ensures Contents() == old(Contents())[Min(n, old(bytesUsed))..]
      ensures bytesUsed == old(bytesUsed) - Min(n, old(bytesUsed))
    {
      hide Contents;
      data := [];
      ghost var whole := Contents();
      NothingTaken(whole);
      if bytesUsed == 0 { return; }
      UsedSegments(readIndex, bytesUsed, size);
      var segs := Segments(readIndex, writeIndex, size);
      hide Segments;
      while segs != []
        invariant Valid() && |data| <= n && whole == data + Contents()
        invariant |data| < n ==> Fits(segs, readIndex, size) && SegRoom(segs) == bytesUsed
        decreases |segs|
      {
        var t := Min(n - |data|, segs[0].len);
        if t > 0 { SegsAdvance(segs, readIndex, size, t); }
        ghost var before, rest := data, Contents();
        var chunk := CopyOut(if t > 0 then t else 0);
        data := data + chunk;
        Resplit(before, rest, |chunk|);
        segs := segs[1..];
      }
      SegsRoom(segs);
      SplitAt(whole, data, Contents());
    }

    /** Second part: bytes out of the writers on the list.  Each is left with what it did not
        get rid of. */
    method TakeFromWriters(front: seq<Writer>, n: nat) returns (ws: seq<Writer>, data: seq<Byte>)
      ensures ws == Drain(front, n)
      ensures data == Flat(front)[..Min(n, |Flat(front)|)]
    {
      hide Flat, Drain;
      ws, data := front, [];
      var j, rem := 0, n;
      assert Flat(front)[0..] == Flat(front);
      while j < |ws|
        invariant j <= |ws| && rem == n - |data|
        invariant |data| <= |Flat(front)| && data == Flat(front)[..|data|] && Flat(ws) == Flat(front)[|data|..]
        invariant Drain(ws, rem) == Drain(front, n)
        invariant rem > 0 ==> forall i | 0 <= i < j :: ws[i].want.data == []
      {
        var t := Min(rem, |ws[j].want.data|);
        if rem > 0 {
          DrainAt(ws, j, t, rem);
          HeadAndTail(Flat(front), data, Flat(ws), t);
          assert Flat(ws)[..t] == ws[j].want.data[..t];
          assert Flat(ws)[t..] == Flat(ws[j := Send(ws[j], t)]);
        } else {
          assert ws[j].want.data[..t] == [] && data + [] == data;
          assert ws[j].want.data[t..] == ws[j].want.data && ws[j := Send(ws[j], t)] == ws;
        }
        data := data + ws[j].want.data[..t];
        ws := ws[j := Send(ws[j], t)];
        rem := rem - t;
        j := j + 1;
      }
      if rem > 0 { FlatEmpty(ws); assert Flat(front)[|data|..] == []; DrainAllEmpty(ws, rem); } else { DrainNone(ws); }
    }

    /** Third part: the buffer is filled up from the writers that still wait. */
    method Refill()
      requires Valid()
      modifies this`bytesUsed, this`writeIndex, this`writers, buffer
      ensures Valid() && View() == Refilled(old(View()))
    {
      hide Flat, Drain, Contents, Wants, Feed, Visited;
      if bytesUsed == size { return; }
      var k, _ := PopulateWriters(size - bytesUsed);
      FreeSegments(readIndex, bytesUsed, size);
      VisitedEnough(writers, size - bytesUsed);
      RefillMatches(writers, k, size - bytesUsed);
      FeedFull([], []);
      ghost var room := size - bytesUsed;
      var segs := Segments(writeIndex, readIndex, size);
      hide Segments, SegRoom, Fits;
      var ss, _, _ := PipeWrite(writers[..k], [], segs);
      writers := ss + writers[k..];
    }

    /** pipe_get_internal() behind z_impl_k_pipe_get(): the caller's own waiting included. */
    method Get(tid: Tid, prio: int, n: nat, min: nat, noWait: bool) returns (r: Result)
      requires Valid() && Inv(View())
      modifies this, buffer
      ensures Valid()
      ensures Outcome(View(), r) == DoGet(old(View()), Op.Get(tid, prio, n, min, noWait))
    {
      hide Flat, Drain, Contents, Inv, Unfinished, WokenWriters, Refilled, Enqueue, Visited;
      if min > n { return Refused(-EINVAL); }
      var k, avail := PopulateWriters(n);
      GetMatches(View(), n, min);
      if bytesUsed + avail < min && noWait { return Refused(-EIO); }
      var data, woken := GetBytes(n, k);
      if |data| == n || noWait || (|data| >= min && min > 0) {
        return Returned(data, woken);
      }
      readers := Enqueue(readers, Waiter(tid, prio, Request(n - |data|, data, min)));
      r := Pending(data, woken);
    }

    /** The copying part of a get. */
    method GetBytes(n: nat, k: nat) returns (data: seq<Byte>, woken: seq<Tid>)
      requires Valid() && k == Visited(writers, n)
      modifies this`bytesUsed, this`readIndex, this`writeIndex, this`writers, buffer
      ensures Valid() && View() == Taken(old(View()), n)
      ensures data == TakenBytes(old(View()), n) && woken == WokenByGet(old(View()), n)
    {
      hide Flat, Drain, Contents, Unfinished, WokenWriters, Refilled, Visited;
      TakenMatches(View(), n);
      data := TakeFromBuffer(n);
      var ws, more := TakeFromWriters(writers[..k], n - |data|);
      data := data + more;
      writers := Unfinished(ws) + writers[k..];
      woken := WokenWriters(ws);
      assert View() == Collected(old(View()), n);
      Refill();
    }

    /** z_impl_k_pipe_flush(): everything goes, from the buffer and from the waiting writers. */
    method Flush(sizeMax: nat)
      requires Valid() && Inv(View()) && |Stream(View())| <= sizeMax
      modifies this, buffer
      ensures Valid() && Inv(View()) && Stream(View()) == []
    {
      ghost var before := View();
      GetKeeps(before, Op.Get(0, 0, sizeMax, 0, true));
      TakenStream(before, sizeMax);
      hide Flat, Inv, Contents, Taken;
      var _ := Get(0, 0, sizeMax, 0, true);
    }

    /** z_impl_k_pipe_buffer_flush(): as many bytes as the buffer can hold are discarded. */
    method BufferFlush()
      requires Valid() && Inv(View())
      modifies this, buffer
      ensures Valid() && Inv(View())
      ensures Stream(View()) == old(Stream(View()))[Min(size, |old(Stream(View()))|)..]
    {
      if size == 0 { assert old(Stream(View()))[0..] == Stream(View()); return; }
      ghost var before := View();
      GetKeeps(before, Op.Get(0, 0, size, 0, true));
      TakenStream(before, size);
      hide Flat, Inv, Contents, Taken;
      var _ := Get(0, 0, size, 0, true);
    }
  }

  lemma {:induction false} NothingTaken(whole: seq<Byte>)
    ensures whole == [] + whole && whole[..0] == [] && whole[0..] == whole
  {
  }

  lemma {:induction false} Resplit(data: seq<Byte>, rest: seq<Byte>, t: nat)
    requires t <= |rest|
    ensures data + rest == (data + rest[..t]) + rest[t..]
  {
  }

  lemma {:induction false} SplitAt(whole: seq<Byte>, data: seq<Byte>, rest: seq<Byte>)
    requires whole == data + rest
    ensures |data| <= |whole| && data == whole[..|data|] && rest == whole[|data|..]
  {
  }

  lemma {:induction false} HeadAndTail(all: seq<Byte>, head: seq<Byte>, tail: seq<Byte>, n: nat)
    requires |head| <= |all| && head == all[..|head|] && tail == all[|head|..] && n <= |tail|
    ensures head + tail[..n] == all[..|head| + n] && tail[n..] == all[|head| + n..]
  {
  }

  lemma {:induction false} DrainAllEmpty(ws: seq<Writer>, n: nat)
    requires forall k | 0 <= k < |ws| :: ws[k].want.data == []
    ensures Drain(ws, n) == ws
    decreases ws
  {
    if ws != [] { DrainAllEmpty(ws[1..], n); }
  }

  lemma {:induction false} RefillMatches(ws: seq<Writer>, k: nat, room: nat)
    requires k <= |ws| && (k == |ws| || room <= |Flat(ws[..k])|)
    ensures var m := Min(|Flat(ws[..k])|, room);
      && Drain(ws[..k], m) + ws[k..] == Drain(ws, room)
      && Flat(ws[..k])[..m] == Flat(ws)[..Min(room, |Flat(ws)|)]
  {
    hide Flat, Drain;
    DrainPrefix(ws, k, room);
    assert ws == ws[..k] + ws[k..];
    FlatConcat(ws[..k], ws[k..]);
    DrainBeyond(ws[..k], room);
    FlatOfTail(ws, k);
  }

  lemma {:induction false} FlatOfTail(ws: seq<Writer>, k: nat)
    requires k <= |ws|
    ensures k == |ws| ==> Flat(ws[k..]) == []
  {
  }

  lemma {:induction false} DrainBeyond(ws: seq<Writer>, n: nat)
    ensures Drain(ws, Min(|Flat(ws)|, n)) == Drain(ws, n)
    decreases ws
  {
    if ws != [] && n >= |ws[0].want.data| { DrainBeyond(ws[1..], n - |ws[0].want.data|); }
  }

  /** What is on the list decides like the whole stream does. */
  lemma {:induction false} GetMatches(s: State, n: nat, min: nat)
    requires min <= n
    ensures |s.buf| + |Flat(s.writers[..Visited(s.writers, n)])| < min <==> |Stream(s)| < min
  {
    hide Flat, Visited;
    var k := Visited(s.writers, n);
    VisitedEnough(s.writers, n);
    assert s.writers == s.writers[..k] + s.writers[k..];
    FlatConcat(s.writers[..k], s.writers[k..]);
    FlatOfTail(s.writers, k);
  }

  lemma {:induction false} TakenMatches(s: State, n: nat)
    ensures var b := Min(n, |s.buf|); var front := s.writers[..Visited(s.writers, n)];
      s.buf[..b] + Flat(front)[..Min(n - b, |Flat(front)|)] == TakenBytes(s, n)
  {
    hide Flat, Visited;
    var k := Visited(s.writers, n);
    VisitedEnough(s.writers, n);
    assert s.writers == s.writers[..k] + s.writers[k..];
    FlatConcat(s.writers[..k], s.writers[k..]);
    FlatOfTail(s.writers, k);
  }

  lemma {:induction false} FeedRest(rs: seq<Reader>)
    ensures Feed(rs, []) == rs
    decreases rs
  {
    if rs != [] {
      FeedRest(rs[1..]);
      assert rs[0].want.got + [] == rs[0].want.got;
    }
  }

  /** The free part of the ring is what pipe_buffer_list_populate() describes. */
  lemma {:induction false} FreeSegments(readIndex: nat, used: nat, size: nat)
    requires readIndex < size && used < size
    ensures var w := Wrap(readIndex + used, size); var segs := Segments(w, readIndex, size);
      Fits(segs, w, size) && SegRoom(segs) == size - used
  {
    SegmentsFit(Wrap(readIndex + used, size), readIndex, size);
  }

  /** And so is the used part. */
  lemma {:induction false} UsedSegments(readIndex: nat, used: nat, size: nat)
    requires readIndex < size && 0 < used <= size
    ensures var w := Wrap(readIndex + used, size); var segs := Segments(readIndex, w, size);
      Fits(segs, readIndex, size) && SegRoom(segs) == used
  {
    SegmentsFit(readIndex, Wrap(readIndex + used, size), size);
  }

  /** What the copy loop leaves behind is what a put should do. */
  lemma {:induction false} PutMatches(s: State, me: Writer, k: nat, written: nat)
    requires Inv(s) && k == VisitedReaders(s.readers, |me.want.data|) && me.want.min <= |me.want.data|
    requires written == Min(|me.want.data|, Wants(s.readers[..k]) + (s.cap - |s.buf|))
    ensures var data := me.want.data; var rd := Feed(s.readers[..k], data[..written]);
      && written == GivenCount(s, data)
      && Drain([me], written) == [Send(me, written)]
      && Tids(Sated(rd)) == Tids(Sated(Feed(s.readers, data)))
      && Given(s, data) == s.(readers := Hungry(rd) + s.readers[k..],
                              buf := s.buf + data[Min(written, Wants(s.readers[..k]))..written])
      && (Wants(s.readers[..k]) + (s.cap - |s.buf|) < me.want.min <==> Wants(s.readers) + (s.cap - |s.buf|) < me.want.min)
  {
    hide Feed, Hungry, Sated, Wants, Flat, Tids;
    var data := me.want.data;
    var rds := s.readers[..k];
    VisitedReadersEnough(s.readers, |data|);
    FeedPrefix(s.readers, k, data);
    assert [me][1..] == [];
    WantsSplit(s.readers, k);
    // handing the list more than it wants changes nothing
    assert written < |data| ==> Wants(rds) <= written;
    if written < |data| { FeedEnough(rds, data, written); } else { assert data[..written] == data; }
    var n := Min(Wants(s.readers), |data|);
    assert n == Min(written, Wants(rds));
    var rest := data[n..];
    assert rest[..Min(s.cap - |s.buf|, |rest|)] == data[n..written];
  }

  lemma {:induction false} WantsSplit(rs: seq<Reader>, k: nat)
    requires k <= |rs|
    ensures Wants(rs) == Wants(rs[..k]) + Wants(rs[k..])
    decreases k
  {
    if k > 0 {
      assert rs[..k][1..] == rs[1..][..k - 1] && rs[k..] == rs[1..][k - 1..];
      WantsSplit(rs[1..], k - 1);
    }
  }

  lemma {:induction false} TakeTwice(bytes: seq<Byte>, t: nat, n: nat)
    requires t <= n <= |bytes|
    ensures bytes[..n][..t] == bytes[..t] && bytes[..n][t..] == bytes[t..][..n - t]
  {
  }

  lemma {:induction false} FeedEnough(rs: seq<Reader>, bytes: seq<Byte>, n: nat)
    requires Wants(rs) <= n <= |bytes|
    ensures Feed(rs, bytes[..n]) == Feed(rs, bytes)
    decreases rs
  {
    if rs != [] {
      var t := rs[0].want.left;
      TakeTwice(bytes, t, n);
      FeedEnough(rs[1..], bytes[t..], n - t);
      assert Feed(rs, bytes) == [Receive(rs[0], bytes[..t])] + Feed(rs[1..], bytes[t..]);
      assert Feed(rs, bytes[..n]) == [Receive(rs[0], bytes[..n][..t])] + Feed(rs[1..], bytes[..n][t..]);
    }
  }

  method Store(a: array<Byte>, at: nat, chunk: seq<Byte>)
    requires at + |chunk| <= a.Length
    modifies a
    ensures a[..] == old(a[..])[..at] + chunk + old(a[..])[at + |chunk|..]
  {
    forall i | 0 <= i < |chunk| { a[at + i] := chunk[i]; }
  }

  lemma {:induction false} WantsConcat(rs: seq<Reader>, r: Reader)
    ensures Wants(rs + [r]) == Wants(rs) + r.want.left
    decreases rs
  {
    if rs == [] {
      assert rs + [r] == [r] && [r][1..] == [];
    } else {
      assert (rs + [r])[0] == rs[0] && (rs + [r])[1..] == rs[1..] + [r];
      WantsConcat(rs[1..], r);
    }
  }
}
