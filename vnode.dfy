/** The part of the virtual file system the file system calls consume: a file's
    bytes, byte-range reads and writes at an offset (VOP_READ, VOP_WRITE),
    its size (VOP_STAT) and name lookup or creation (vfs_open). */
module Vnodes {
  import opened Types

  /** What a uio says after a transfer: where it ended and how much of the
      requested length was not moved. */
  datatype Uio = Uio(offset: nat, resid: nat)

  /** Bytes a read of `len` at `offset` moves from a file of `size` bytes:
      all of them, unless the file ends first. */
  function ReadCount(size: nat, offset: nat, len: nat): (k: nat)
    ensures k <= len
    ensures k > 0 ==> offset + k <= size
    ensures k < len ==> offset + k >= size
  {
    if offset >= size then 0
    else if size - offset < len then size - offset
    else len
  }

  /** The bytes a read of `len` at `offset` delivers. */
  function ReadAt(data: seq<byte>, offset: nat, len: nat): (r: seq<byte>)
    ensures |r| == ReadCount(|data|, offset, len)
    ensures forall i :: 0 <= i < |r| ==> r[i] == data[offset + i]
  {
    var k := ReadCount(|data|, offset, len);
    if k == 0 then [] else data[offset..offset + k]
  }

  function Zeros(n: nat): (z: seq<byte>)
    ensures |z| == n && forall i :: 0 <= i < n ==> z[i] == 0
  {
    seq(n, _ => 0)
  }

  /** The file after `bytes` are written at `offset`: the bytes land at the
      offset, everything else keeps its value, and a gap past the old end
      reads as zeros. */
  function WriteAt(data: seq<byte>, offset: nat, bytes: seq<byte>): (r: seq<byte>)
    ensures |r| == if offset + |bytes| <= |data| then |data| else offset + |bytes|
    ensures forall i :: 0 <= i < |bytes| ==> r[offset + i] == bytes[i]
    ensures forall i :: 0 <= i < |data| && (i < offset || offset + |bytes| <= i) ==> r[i] == data[i]
    ensures forall i :: |data| <= i < offset ==> r[i] == 0
  {
    var padded := if offset <= |data| then data else data + Zeros(offset - |data|);
    padded[..offset] + bytes + (if offset + |bytes| < |padded| then padded[offset + |bytes|..] else [])
  }

  /** Reading back what was just written at the same offset returns exactly
      the written bytes. */
  lemma WriteThenRead(data: seq<byte>, offset: nat, bytes: seq<byte>)
    ensures ReadAt(WriteAt(data, offset, bytes), offset, |bytes|) == bytes
  {
    var r := ReadAt(WriteAt(data, offset, bytes), offset, |bytes|);
    assert |r| == |bytes|;
    forall i | 0 <= i < |bytes| ensures r[i] == bytes[i] { }
  }

  /** Two reads in a row, the second starting where the first ended, deliver
      the same bytes as one read of the combined length: no byte is skipped
      or delivered twice. */
  lemma ConsecutiveReads(data: seq<byte>, offset: nat, n: nat, m: nat)
    ensures var first := ReadAt(data, offset, n);
            first + ReadAt(data, offset + |first|, m) == ReadAt(data, offset, n + m)
  {
    var first := ReadAt(data, offset, n);
    var second := ReadAt(data, offset + |first|, m);
    var whole := ReadAt(data, offset, n + m);
    if |first| < n {
      assert |second| == 0;
    }
    assert |first + second| == |whole|;
    forall i | 0 <= i < |whole| ensures (first + second)[i] == whole[i] {
      if i >= |first| {
        assert (first + second)[i] == second[i - |first|];
      }
    }
  }

  /** A file as the vnode layer holds it. */
  class Vnode {
    /** The file's bytes. */
    var data: seq<byte>
    /** The device error every transfer on this file reports, if the device
        is failing; stands for the I/O errors the model cannot see. */
    const fault: Option<Errno>

    constructor (contents: seq<byte>, fault: Option<Errno>)
      ensures data == contents && this.fault == fault
    {
      data := contents;
      this.fault := fault;
    }

    /** VOP_STAT's st_size: where the file ends. A read there delivers
        nothing, whatever its length, and a read of one byte just before it
        delivers a byte. */
    function Size(): (n: nat)
      reads this
      ensures forall len: nat :: ReadAt(data, n, len) == []
      ensures n > 0 ==> |ReadAt(data, n - 1, 1)| == 1
    {
      |data|
    }

    /** VOP_READ: a read of `len` bytes at `offset`. On success the uio ends
        at the offset plus the bytes moved, with the rest of `len` as resid. */
    method Read(offset: nat, len: nat) returns (res: Result<seq<byte>>, uio: Uio)
      ensures fault.Some? ==> res == Err(fault.value)
      ensures fault.None? ==> res == Ok(ReadAt(data, offset, len))
      ensures res.Ok? ==> |res.value| <= len && uio == Uio(offset + |res.value|, len - |res.value|)
    {
      if fault.Some? {
        return Err(fault.value), Uio(offset, len);
      }
      var got := ReadAt(data, offset, len);
      res, uio := Ok(got), Uio(offset + |got|, len - |got|);
    }

    /** VOP_WRITE: writes all of `bytes` at `offset`, or fails and changes nothing. */
    method Write(offset: nat, bytes: seq<byte>) returns (err: Option<Errno>, uio: Uio)
      modifies this
      ensures err == fault
      ensures err.Some? ==> data == old(data)
      ensures err.None? ==> data == WriteAt(old(data), offset, bytes) && uio == Uio(offset + |bytes|, 0)
    {
      if fault.Some? {
        return fault, Uio(offset, |bytes|);
      }
      data := WriteAt(data, offset, bytes);
      err, uio := None, Uio(offset + |bytes|, 0);
    }
  }

  /** Why vfs_open refuses `path` under `flags`, if it does: a missing file
      without O_CREAT, or an existing one under O_CREAT|O_EXCL. */
  function LookupError(names: map<string, Vnode>, path: string, flags: Flags): (e: Option<Errno>)
    ensures e.None? ==> path in names || flags & O_CREAT != 0
    ensures e == Some(EEXIST) ==> path in names
    ensures path !in names && flags & O_CREAT == 0 ==> e == Some(ENOENT)
    ensures path in names && flags & O_CREAT != 0 && flags & O_EXCL != 0 ==> e == Some(EEXIST)
  {
    if path in names then
      (if flags & O_CREAT != 0 && flags & O_EXCL != 0 then Some(EEXIST) else None)
    else
      (if flags & O_CREAT != 0 then None else Some(ENOENT))
  }

  /** The name space of the file system. */
  class Vfs {
    var names: map<string, Vnode>

    constructor (names: map<string, Vnode>)
      ensures this.names == names
    {
      this.names := names;
    }

    /** vfs_open: look `path` up, creating an empty file under O_CREAT when
        it is missing. */
    method Open(path: string, flags: Flags) returns (res: Result<Vnode>)
      modifies this
      ensures LookupError(old(names), path, flags).Some? ==>
                res == Err(LookupError(old(names), path, flags).value) && names == old(names)
      ensures LookupError(old(names), path, flags).None? && path in old(names) ==>
                res == Ok(old(names)[path]) && names == old(names)
      ensures LookupError(old(names), path, flags).None? && path !in old(names) ==>
                res.Ok? && fresh(res.value) && res.value.data == [] && names == old(names)[path := res.value]
    {
      var e := LookupError(names, path, flags);
      if e.Some? {
        return Err(e.value);
      }
      if path in names {
        return Ok(names[path]);
      }
      var v := new Vnode([], None);
      names := names[path := v];
      res := Ok(v);
    }
  }
}
