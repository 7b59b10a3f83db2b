/** What the meld loop computes, on values: the loop of sys_meld as written,
    step by step, and the interleaving it is meant to produce. */
module MeldSpec {
  import opened Types
  import opened Vnodes

  /** Bytes per read and per write in the meld loop. */
  const CHUNK: nat := 4

  /** Everything one meld iteration reads and updates: the two source
      offsets, the two reusable 4-byte buffers, the destination's bytes and
      its offset. */
  datatype Chunks = Chunks(off1: nat, off2: nat, buf1: seq<byte>, buf2: seq<byte>, dest: seq<byte>, off3: nat)

  predicate Shaped(s: Chunks)
  {
    |s.buf1| == CHUNK && |s.buf2| == CHUNK
  }

  /** A 4-byte read at `offset` into `buf`: the bytes read overwrite the
      front of the buffer and the rest keeps whatever an earlier read left
      there. Also returns the offset the read ends at. */
  function ReadChunk(data: seq<byte>, offset: nat, buf: seq<byte>): (r: (seq<byte>, nat))
    requires |buf| == CHUNK
    ensures |r.0| == CHUNK
    ensures r.1 == offset + ReadCount(|data|, offset, CHUNK)
    ensures forall i :: 0 <= i < r.1 - offset ==> r.0[i] == data[offset + i]
    ensures forall i :: r.1 - offset <= i < CHUNK ==> r.0[i] == buf[i]
  {
    var got := ReadAt(data, offset, CHUNK);
    (got + buf[|got|..], offset + |got|)
  }

  /** One iteration of the loop: read a chunk of each source, then write the
      whole of buffer 1 and the whole of buffer 2 at the destination offset. */
  function MeldStep(d1: seq<byte>, d2: seq<byte>, s: Chunks): (t: Chunks)
    requires Shaped(s)
    ensures Shaped(t)
  {
    var (b1, o1) := ReadChunk(d1, s.off1, s.buf1);
    var (b2, o2) := ReadChunk(d2, s.off2, s.buf2);
    var dest1 := WriteAt(s.dest, s.off3, b1);
    Chunks(o1, o2, b1, b2, WriteAt(dest1, s.off3 + CHUNK, b2), s.off3 + 2 * CHUNK)
  }

  /** What one iteration does: each buffer holds its source's next chunk read
      over what it held, the two buffers land side by side at the destination
      offset, which moves on by 8, and a destination written from its end
      keeps what it had. */
  lemma MeldStepWrites(d1: seq<byte>, d2: seq<byte>, s: Chunks)
    requires Shaped(s)
    ensures var t := MeldStep(d1, d2, s);
            (t.buf1, t.off1) == ReadChunk(d1, s.off1, s.buf1) && (t.buf2, t.off2) == ReadChunk(d2, s.off2, s.buf2) &&
            t.off3 == s.off3 + 2 * CHUNK && s.off3 + 2 * CHUNK <= |t.dest| &&
            t.dest[s.off3..s.off3 + CHUNK] == t.buf1 && t.dest[s.off3 + CHUNK..s.off3 + 2 * CHUNK] == t.buf2 &&
            (|s.dest| <= s.off3 ==> t.dest[..|s.dest|] == s.dest)
  {
    var t := MeldStep(d1, d2, s);
    var dest1 := WriteAt(s.dest, s.off3, t.buf1);
    assert |dest1| >= s.off3 + CHUNK;
    assert t.dest == WriteAt(dest1, s.off3 + CHUNK, t.buf2);
  }

  /** The loop `while (counter < limit) { ...; counter += 4; }` from state `s`. */
  function MeldRun(d1: seq<byte>, d2: seq<byte>, s: Chunks, counter: int, limit: int): (t: Chunks)
    requires Shaped(s)
    ensures Shaped(t)
    decreases limit - counter
  {
    if counter < limit then MeldRun(d1, d2, MeldStep(d1, d2, s), counter + CHUNK, limit)
    else s
  }

  /** Each pass of the loop moves the destination offset on by 8 and never
      moves a source offset back. */
  lemma {:induction false} MeldRunAdvances(d1: seq<byte>, d2: seq<byte>, s: Chunks, counter: int, limit: int)
    requires Shaped(s)
    ensures var t := MeldRun(d1, d2, s, counter, limit);
            t.off3 == s.off3 + 2 * CHUNK * Iterations(counter, limit) &&
            s.off1 <= t.off1 && s.off2 <= t.off2
    decreases limit - counter
  {
    if counter < limit {
      assert Iterations(counter, limit) == Iterations(counter + CHUNK, limit) + 1;
      MeldRunAdvances(d1, d2, MeldStep(d1, d2, s), counter + CHUNK, limit);
    }
  }

  /** The number of iterations the loop makes. */
  function Iterations(counter: int, limit: int): nat
  {
    if counter < limit then (limit - counter + CHUNK - 1) / CHUNK else 0
  }

  /** The state the loop starts from in sys_meld: both sources at offset 0,
      buffers as allocated, an empty new destination. */
  function Start(buf1: seq<byte>, buf2: seq<byte>): Chunks
  {
    Chunks(0, 0, buf1, buf2, [], 0)
  }

  /** The loop's bound: half the combined size of the sources. */
  function Limit(d1: seq<byte>, d2: seq<byte>): (l: int)
    ensures 0 <= 2 * l <= |d1| + |d2| <= 2 * l + 1
  {
    (|d1| + |d2|) / 2
  }

  /** The intended result: 4-byte chunks taken alternately from two sources
      of equal length, the last chunk of each possibly shorter. */
  function Interleave(a: seq<byte>, b: seq<byte>): (r: seq<byte>)
    requires |a| == |b|
    ensures |r| == |a| + |b|
    ensures CHUNK <= |a| ==> r[..CHUNK] == a[..CHUNK] && r[CHUNK..2 * CHUNK] == b[..CHUNK]
    decreases |a|
  {
    if |a| <= CHUNK then a + b else a[..CHUNK] + b[..CHUNK] + Interleave(a[CHUNK..], b[CHUNK..])
  }

  /** One chunk less than a whole number of chunks is a whole number of chunks. */
  lemma AlignedLess(n: nat)
    requires n % CHUNK == 0 && n >= CHUNK
    ensures (n - CHUNK) % CHUNK == 0
  {
  }

  /** Between two whole numbers of chunks there is at least one chunk. */
  lemma AlignedGap(lo: nat, hi: nat)
    requires lo % CHUNK == 0 && hi % CHUNK == 0 && lo < hi
    ensures lo + CHUNK <= hi && (lo + CHUNK) % CHUNK == 0
    ensures (hi - lo) % CHUNK == 0 && (hi - (lo + CHUNK)) % CHUNK == 0
  {
    var p, q := lo / CHUNK, hi / CHUNK;
    assert lo == CHUNK * p && hi == CHUNK * q;
    assert p + 1 <= q;
    assert lo + CHUNK == CHUNK * (p + 1);
    assert hi - lo == CHUNK * (q - p);
    assert hi - (lo + CHUNK) == CHUNK * (q - p - 1);
  }

  /** With at least a chunk in each source, the interleaving starts with one
      chunk of each and goes on with the interleaving of the rest. */
  lemma InterleaveUnfold(a: seq<byte>, b: seq<byte>)
    requires |a| == |b| && CHUNK <= |a|
    ensures Interleave(a, b) == a[..CHUNK] + b[..CHUNK] + Interleave(a[CHUNK..], b[CHUNK..])
  {
    if |a| == CHUNK {
      assert a[..CHUNK] == a && b[..CHUNK] == b;
      assert Interleave(a[CHUNK..], b[CHUNK..]) == [];
      assert a + b + [] == a + b;
    }
  }

  /** Past the first chunk of each source, the interleaving continues as
      the interleaving of what follows them. */
  lemma InterleaveShift(a: seq<byte>, b: seq<byte>, k: nat)
    requires |a| == |b| && 2 * CHUNK <= k < |a| + |b|
    ensures Interleave(a, b)[k] == Interleave(a[CHUNK..], b[CHUNK..])[k - 2 * CHUNK]
  {
    var head, rest := a[..CHUNK] + b[..CHUNK], Interleave(a[CHUNK..], b[CHUNK..]);
    assert |head| == 2 * CHUNK;
    assert Interleave(a, b) == head + rest by {
      InterleaveUnfold(a, b);
    }
    assert (head + rest)[k] == rest[k - 2 * CHUNK];
  }

  /** The chunk of `a` at position `i` lands at position 2i of the
      interleaving, and the chunk of `b` at `i` right after it: byte `j` of
      each chunk is where it should be. */
  lemma {:induction false} InterleaveChunks(a: seq<byte>, b: seq<byte>, i: nat, j: nat)
    requires |a| == |b| && i % CHUNK == 0 && i + CHUNK <= |a| && j < CHUNK
    ensures Interleave(a, b)[2 * i + j] == a[i + j]
    ensures Interleave(a, b)[2 * i + CHUNK + j] == b[i + j]
  {
    if i == 0 {
      var head, rest := a[..CHUNK] + b[..CHUNK], Interleave(a[CHUNK..], b[CHUNK..]);
      assert Interleave(a, b) == head + rest by {
        InterleaveUnfold(a, b);
      }
      assert head[j] == a[j] && head[CHUNK + j] == b[j];
    } else {
      AlignedLess(i);
      var k := i - CHUNK;
      InterleaveShift(a, b, 2 * i + j);
      InterleaveShift(a, b, 2 * i + CHUNK + j);
      InterleaveChunks(a[CHUNK..], b[CHUNK..], k, j);
      assert a[CHUNK..][k + j] == a[i + j] && b[CHUNK..][k + j] == b[i + j];
    }
  }

  lemma WriteAtEnd(data: seq<byte>, bytes: seq<byte>)
    ensures WriteAt(data, |data|, bytes) == data + bytes
  {
    var r := WriteAt(data, |data|, bytes);
    assert |r| == |data + bytes|;
    forall i | 0 <= i < |r| ensures r[i] == (data + bytes)[i] {
      if i >= |data| {
        assert r[|data| + (i - |data|)] == bytes[i - |data|];
      }
    }
  }

  /** A read with 4 bytes left fills the buffer with them. */
  lemma ReadFullChunk(data: seq<byte>, offset: nat, buf: seq<byte>)
    requires offset + CHUNK <= |data| && |buf| == CHUNK
    ensures ReadChunk(data, offset, buf) == (data[offset..offset + CHUNK], offset + CHUNK)
  {
    var got := ReadAt(data, offset, CHUNK);
    assert got == data[offset..offset + CHUNK];
    assert got + buf[|got|..] == got;
  }

  /** A read at or past the end moves nothing: the buffer keeps its bytes. */
  lemma ReadPastEnd(data: seq<byte>, offset: nat, buf: seq<byte>)
    requires |data| <= offset && |buf| == CHUNK
    ensures ReadChunk(data, offset, buf) == (buf, offset)
  {
    var got := ReadAt(data, offset, CHUNK);
    assert got == [];
    assert got + buf[|got|..] == buf;
  }

  /** From a state whose destination offset is its end, one iteration appends
      both buffers, as they are after the reads. */
  lemma StepAppends(d1: seq<byte>, d2: seq<byte>, s: Chunks)
    requires Shaped(s) && s.off3 == |s.dest|
    ensures var t := MeldStep(d1, d2, s);
            t.dest == s.dest + t.buf1 + t.buf2 && t.off3 == |t.dest| &&
            (t.buf1, t.off1) == ReadChunk(d1, s.off1, s.buf1) &&
            (t.buf2, t.off2) == ReadChunk(d2, s.off2, s.buf2)
  {
    var t := MeldStep(d1, d2, s);
    WriteAtEnd(s.dest, t.buf1);
    WriteAtEnd(s.dest + t.buf1, t.buf2);
  }

  /** Whatever the reads return, each iteration appends exactly 8 bytes to
      the destination: the loop writes whole buffers. */
  lemma {:induction false} MeldRunLength(d1: seq<byte>, d2: seq<byte>, s: Chunks, counter: int, limit: int)
    requires Shaped(s) && s.off3 == |s.dest|
    ensures var t := MeldRun(d1, d2, s, counter, limit);
            t.off3 == |t.dest| == |s.dest| + 2 * CHUNK * Iterations(counter, limit) &&
            t.dest[..|s.dest|] == s.dest
    decreases limit - counter
  {
    if counter < limit {
      var s' := MeldStep(d1, d2, s);
      StepAppends(d1, d2, s);
      MeldRunLength(d1, d2, s', counter + CHUNK, limit);
      assert Iterations(counter, limit) == Iterations(counter + CHUNK, limit) + 1;
      var t := MeldRun(d1, d2, s', counter + CHUNK, limit);
      assert MeldRun(d1, d2, s, counter, limit) == t;
      assert t.dest[..|s.dest|] == t.dest[..|s'.dest|][..|s.dest|];
    }
  }

  /** From an aligned point of two equally long sources, the loop appends
      the interleaving of what is left of them. */
  lemma {:induction false} MeldRunAligned(d1: seq<byte>, d2: seq<byte>, s: Chunks, counter: int)
    requires |d1| == |d2| && |d1| % CHUNK == 0
    requires 0 <= counter <= |d1| && counter % CHUNK == 0
    requires Shaped(s) && s.off1 == counter && s.off2 == counter && s.off3 == |s.dest|
    ensures var t := MeldRun(d1, d2, s, counter, |d1|);
            t.dest == s.dest + Interleave(d1[counter..], d2[counter..]) &&
            t.off3 == |t.dest| && t.off1 == |d1| && t.off2 == |d2|
    decreases |d1| - counter
  {
    if counter < |d1| {
      AlignedGap(counter, |d1|);
      var s' := MeldStep(d1, d2, s);
      var c1, c2 := d1[counter..counter + CHUNK], d2[counter..counter + CHUNK];
      assert s'.dest == s.dest + c1 + c2 && s'.off3 == |s'.dest| &&
             s'.off1 == counter + CHUNK && s'.off2 == counter + CHUNK by {
        AlignedStep(d1, d2, s);
      }
      var rest := Interleave(d1[counter + CHUNK..], d2[counter + CHUNK..]);
      var t := MeldRun(d1, d2, s', counter + CHUNK, |d1|);
      assert t.dest == s'.dest + rest && t.off3 == |t.dest| && t.off1 == |d1| && t.off2 == |d2| by {
        MeldRunAligned(d1, d2, s', counter + CHUNK);
      }
      assert Interleave(d1[counter..], d2[counter..]) == c1 + c2 + rest by {
        InterleaveFrom(d1, d2, counter);
      }
      assert MeldRun(d1, d2, s, counter, |d1|) == t;
      Regroup(s.dest, c1, c2, rest);
    } else {
      assert d1[counter..] == [] && d2[counter..] == [];
    }
  }

  /** One iteration from equal offsets with a whole chunk left in each
      source appends one chunk of each. */
  lemma AlignedStep(d1: seq<byte>, d2: seq<byte>, s: Chunks)
    requires Shaped(s) && s.off1 == s.off2 && s.off3 == |s.dest|
    requires s.off1 + CHUNK <= |d1| && s.off2 + CHUNK <= |d2|
    ensures var c1, c2 := d1[s.off1..s.off1 + CHUNK], d2[s.off2..s.off2 + CHUNK];
            MeldStep(d1, d2, s) == Chunks(s.off1 + CHUNK, s.off2 + CHUNK, c1, c2, s.dest + c1 + c2, |s.dest| + 2 * CHUNK)
  {
    StepAppends(d1, d2, s);
    ReadFullChunk(d1, s.off1, s.buf1);
    ReadFullChunk(d2, s.off2, s.buf2);
  }

  /** The interleaving of what is left from an aligned position: one chunk
      of each, then the interleaving of the rest. */
  lemma InterleaveFrom(d1: seq<byte>, d2: seq<byte>, i: nat)
    requires |d1| == |d2| && i + CHUNK <= |d1|
    ensures Interleave(d1[i..], d2[i..]) ==
            d1[i..i + CHUNK] + d2[i..i + CHUNK] + Interleave(d1[i + CHUNK..], d2[i + CHUNK..])
  {
    var a, b := d1[i..], d2[i..];
    InterleaveUnfold(a, b);
    assert a[CHUNK..] == d1[i + CHUNK..] && b[CHUNK..] == d2[i + CHUNK..];
    assert a[..CHUNK] == d1[i..i + CHUNK] && b[..CHUNK] == d2[i..i + CHUNK];
  }

  /** For two sources of equal length that is a multiple of 4, sys_meld's loop
      writes their interleaving, and the destination offset ends at the
      combined length. */
  lemma MeldOfAlignedSources(d1: seq<byte>, d2: seq<byte>, buf1: seq<byte>, buf2: seq<byte>)
    requires |d1| == |d2| && |d1| % CHUNK == 0
    requires |buf1| == CHUNK && |buf2| == CHUNK
    ensures var t := MeldRun(d1, d2, Start(buf1, buf2), 0, Limit(d1, d2));
            t.dest == Interleave(d1, d2) && t.off3 == |d1| + |d2|
  {
    assert Limit(d1, d2) == |d1|;
    MeldRunAligned(d1, d2, Start(buf1, buf2), 0);
    assert d1[0..] == d1 && d2[0..] == d2;
  }

  /** Four copies of an ASCII character, as bytes: "AAAA" is Quad('A'). */
  function Quad(c: char): (q: seq<byte>)
    requires c as int < 256
    ensures |q| == CHUNK
  {
    var b := c as int as byte;
    [b, b, b, b]
  }

  /** A chunk of each in front of two sources comes out in front of their
      interleaving. */
  lemma InterleaveCons(x: seq<byte>, y: seq<byte>, a: seq<byte>, b: seq<byte>)
    requires |x| == CHUNK && |y| == CHUNK && |a| == |b|
    ensures Interleave(x + a, y + b) == x + y + Interleave(a, b)
  {
    InterleaveUnfold(x + a, y + b);
    assert (x + a)[..CHUNK] == x && (x + a)[CHUNK..] == a;
    assert (y + b)[..CHUNK] == y && (y + b)[CHUNK..] == b;
  }

  /** Three chunks of each source, interleaved. */
  lemma InterleaveThree(x1: seq<byte>, x2: seq<byte>, x3: seq<byte>,
                        y1: seq<byte>, y2: seq<byte>, y3: seq<byte>)
    requires |x1| == |x2| == |x3| == |y1| == |y2| == |y3| == CHUNK
    ensures Interleave(x1 + x2 + x3, y1 + y2 + y3) == x1 + y1 + x2 + y2 + x3 + y3
  {
    Associate(x1, x2, x3);
    Associate(y1, y2, y3);
    var tail := Interleave(x2 + x3, y2 + y3);
    assert tail == x2 + y2 + (x3 + y3) by {
      InterleaveCons(x2, y2, x3, y3);
    }
    assert Interleave(x1 + (x2 + x3), y1 + (y2 + y3)) == x1 + y1 + tail by {
      InterleaveCons(x1, y1, x2 + x3, y2 + y3);
    }
    Flatten(x1 + y1, x2 + y2, x3, y3);
  }

  /** Three chunks from each source come out alternating. */
  lemma MeldThreeChunks(x1: seq<byte>, x2: seq<byte>, x3: seq<byte>,
                        y1: seq<byte>, y2: seq<byte>, y3: seq<byte>,
                        buf1: seq<byte>, buf2: seq<byte>)
    requires |x1| == |x2| == |x3| == |y1| == |y2| == |y3| == CHUNK
    requires |buf1| == CHUNK && |buf2| == CHUNK
    ensures var t := MeldRun(x1 + x2 + x3, y1 + y2 + y3, Start(buf1, buf2), 0, Limit(x1 + x2 + x3, y1 + y2 + y3));
            t.dest == x1 + y1 + x2 + y2 + x3 + y3 && t.off3 == 24
  {
    MeldOfAlignedSources(x1 + x2 + x3, y1 + y2 + y3, buf1, buf2);
    InterleaveThree(x1, x2, x3, y1, y2, y3);
  }

  lemma Associate(p: seq<byte>, q: seq<byte>, r: seq<byte>)
    ensures p + q + r == p + (q + r)
  {
  }

  lemma Regroup(p: seq<byte>, q: seq<byte>, r: seq<byte>, u: seq<byte>)
    ensures p + q + r + u == p + (q + r + u)
  {
    Associate(p, q, r);
    Associate(p, q + r, u);
  }

  lemma Flatten(p: seq<byte>, q: seq<byte>, r: seq<byte>, u: seq<byte>)
    ensures p + (q + (r + u)) == p + q + r + u
  {
    Associate(q, r, u);
    Associate(p, q + r, u);
    Associate(p, q, r);
  }

  /** The meld test program's files: "AAAABBBBCCCC" and "ddddeeeeffff" meld
      into "AAAAddddBBBBeeeeCCCCffff", and the destination offset ends at 24. */
  lemma MeldTestFiles(file1: seq<byte>, file2: seq<byte>, buf1: seq<byte>, buf2: seq<byte>)
    requires file1 == Quad('A') + Quad('B') + Quad('C') && file2 == Quad('d') + Quad('e') + Quad('f')
    requires |buf1| == CHUNK && |buf2| == CHUNK
    ensures var t := MeldRun(file1, file2, Start(buf1, buf2), 0, Limit(file1, file2));
            t.dest == Quad('A') + Quad('d') + Quad('B') + Quad('e') + Quad('C') + Quad('f') && t.off3 == 24
  {
    MeldThreeChunks(Quad('A'), Quad('B'), Quad('C'), Quad('d'), Quad('e'), Quad('f'), buf1, buf2);
  }

  /** When the second source runs out a chunk early, its last chunk is
      written again: the read moves nothing and the buffer keeps it. */
  lemma {:induction false} MeldRepeatsLastChunk(x1: seq<byte>, x2: seq<byte>, y1: seq<byte>,
                                                buf1: seq<byte>, buf2: seq<byte>)
    requires |x1| == |x2| == |y1| == CHUNK
    requires |buf1| == CHUNK && |buf2| == CHUNK
    ensures var t := MeldRun(x1 + x2, y1, Start(buf1, buf2), 0, Limit(x1 + x2, y1));
            t.dest == x1 + y1 + x2 + y1 && t.off3 == 16
  {
    var a := x1 + x2;
    var s0 := Start(buf1, buf2);
    var s1 := MeldStep(a, y1, s0);
    assert s1 == Chunks(4, 4, x1, y1, x1 + y1, 8) by {
      StepAppends(a, y1, s0);
      ReadFullChunk(a, 0, buf1);
      ReadFullChunk(y1, 0, buf2);
      assert a[0..4] == x1 && y1[0..4] == y1;
    }
    var s2 := MeldStep(a, y1, s1);
    assert s2 == Chunks(8, 4, x2, y1, x1 + y1 + x2 + y1, 16) by {
      StepAppends(a, y1, s1);
      ReadFullChunk(a, 4, x1);
      ReadPastEnd(y1, 4, y1);
      assert a[4..8] == x2;
    }
    assert Limit(a, y1) == 6;
    assert MeldRun(a, y1, s0, 0, 6) == MeldRun(a, y1, s1, 4, 6);
    assert MeldRun(a, y1, s1, 4, 6) == MeldRun(a, y1, s2, 8, 6) == s2;
  }

  /** A short read re-emits stale buffer bytes: melding "AAAABBBB" with "dddd"
      writes 16 bytes, "AAAAddddBBBBdddd", more than the 12 the sources hold,
      because the second read of the 4-byte source moves nothing and buffer 2
      still holds "dddd". */
  lemma MeldRepeatsStaleChunk(file1: seq<byte>, file2: seq<byte>, buf1: seq<byte>, buf2: seq<byte>)
    requires file1 == Quad('A') + Quad('B') && file2 == Quad('d')
    requires |buf1| == CHUNK && |buf2| == CHUNK
    ensures var t := MeldRun(file1, file2, Start(buf1, buf2), 0, Limit(file1, file2));
            t.dest == Quad('A') + Quad('d') + Quad('B') + Quad('d') && t.off3 == 16 &&
            t.off3 > |file1| + |file2|
  {
    MeldRepeatsLastChunk(Quad('A'), Quad('B'), Quad('d'), buf1, buf2);
  }
}
