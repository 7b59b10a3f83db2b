/** The file system calls of kern/syscall/file_syscalls.c. Each call takes
    the calling process's descriptor table as a parameter where the kernel
    reaches it through curproc->p_filetable, and the file system name space
    where the kernel calls vfs_open. */
module FileSyscalls {
  import opened Types
  import opened Vnodes
  import opened OpenFiles
  import opened FileTables
  import opened MeldSpec

  /** filetable_place of a newly opened file, which brings its one reference
      with it into the table: the reference-count invariant is kept. */
  method PlaceOpened(table: FileTable, file: OpenFile) returns (res: Result<nat>)
    requires table.Valid() && file !in table.slots[..] && file.refcount >= 1
    modifies table.slots
    ensures table.Valid()
    ensures res.Ok? <==> null in old(table.slots[..])
    ensures res.Ok? <==> Occurrences(old(table.slots[..]), null) > 0
    ensures res.Ok? ==>
              res.value < table.slots.Length && old(table.slots[res.value]) == null &&
              table.slots[..] == old(table.slots[..])[res.value := file] &&
              Occurrences(table.slots[..], null) == Occurrences(old(table.slots[..]), null) - 1
    ensures res.Err? ==> res.error == EMFILE && table.slots[..] == old(table.slots[..])
  {
    ghost var before := table.slots[..];
    OccurrencesPositive(before, null);
    res := table.Place(file);
    if res.Ok? {
      PlaceKeepsCounts(before, res.value, file);
    }
  }

  /** Whether sys_open gets as far as an open file: the flags pass the
      check, the path is copied in, and openfile_open succeeds. */
  ghost predicate OpenReachesPlace(names: map<string, Vnode>, upath: UserPath, flags: Flags)
  {
    flags != ALL_FLAGS && upath.Path? && OpenError(names, upath.name, flags).None?
  }

  /** open(): check the flags, copy the path in, open the file, and place it
      in the descriptor table. `newFile` is the open file made on the way, if
      any: when the table is full it is dropped without its reference being
      given back. */
  method SysOpen(vfs: Vfs, table: FileTable, upath: UserPath, flags: Flags, mode: int)
    returns (r: SysResult, ghost newFile: OpenFile?)
    requires table.Valid()
    modifies vfs, table.slots
    ensures table.Valid()
    // EINVAL comes from the flag check alone, and only for one flag value
    ensures r == Failure(EINVAL) <==> flags == ALL_FLAGS
    ensures flags != ALL_FLAGS && upath.Unreadable? ==> r == Failure(EFAULT)
    ensures flags != ALL_FLAGS && upath.Path? && OpenError(old(vfs.names), upath.name, flags).Some? ==>
              r == Failure(EFAULT)
    ensures !OpenReachesPlace(old(vfs.names), upath, flags) ==>
              vfs.names == old(vfs.names) && table.slots[..] == old(table.slots[..])
    ensures OpenReachesPlace(old(vfs.names), upath, flags) ==>
              upath.name in vfs.names &&
              (upath.name in old(vfs.names) ==> vfs.names == old(vfs.names)) &&
              (upath.name !in old(vfs.names) ==> fresh(vfs.names[upath.name]) && vfs.names[upath.name].data == [] &&
                                                 vfs.names == old(vfs.names)[upath.name := vfs.names[upath.name]])
    ensures OpenReachesPlace(old(vfs.names), upath, flags) && null !in old(table.slots[..]) ==>
              r == Failure(EMFILE) && table.slots[..] == old(table.slots[..]) &&
              // the leaked open file: outside the table, still holding its reference
              newFile != null && fresh(newFile) && newFile !in table.slots[..] && newFile.refcount == 1 &&
              newFile.vnode == vfs.names[upath.name]
    ensures OpenReachesPlace(old(vfs.names), upath, flags) && null in old(table.slots[..]) ==>
              r.Success? && 0 <= r.retval < table.slots.Length && old(table.slots[r.retval]) == null &&
              table.slots[r.retval] == newFile && newFile != null && fresh(newFile) &&
              table.slots[..] == old(table.slots[..])[r.retval := table.slots[r.retval]] &&
              table.slots[r.retval].vnode == vfs.names[upath.name] &&
              table.slots[r.retval].accmode == AccessMode(flags) &&
              table.slots[r.retval].offset == 0 && table.slots[r.retval].refcount == 1 &&
              !table.slots[r.retval].locked
  {
    newFile := null;
    if flags == ALL_FLAGS {
      return Failure(EINVAL), newFile;
    }
    if upath.Unreadable? {
      return Failure(EFAULT), newFile;
    }
    var made := OpenfileOpen(vfs, upath.name, flags, mode);
    if made.Err? {
      return Failure(EFAULT), newFile;
    }
    var file := made.value;
    newFile := file;
    assert file !in table.slots[..];
    var placed := PlaceOpened(table, file);
    if placed.Err? {
      // the new open file keeps its reference and is lost
      return Failure(EMFILE), newFile;
    }
    r := Success(placed.value);
  }

  /** read(): look the descriptor up, lock the offset, refuse write-only
      files, read at the offset, advance it by the bytes moved. Returns the
      bytes delivered to the user buffer with the result. */
  method SysRead(table: FileTable, fd: int, size: nat) returns (r: SysResult, bytes: seq<byte>)
    requires table.Valid()
    modifies table.FileAt(fd)
    ensures table.Valid()
    ensures !table.IsOpen(fd) ==> r == Failure(EBADF)
    ensures table.IsOpen(fd) ==>
              var f := table.slots[fd];
              f.refcount == old(f.refcount) &&
              if old(f.locked) then
                // lock_acquire waits for a lock an earlier call never released
                r == Hangs && f.offset == old(f.offset) && f.locked
              else if f.accmode == O_WRONLY then
                r == Failure(EACCES) && f.offset == old(f.offset) && !f.locked
              else if f.vnode.fault.Some? then
                // returns with the offset lock still held
                r == Failure(f.vnode.fault.value) && f.offset == old(f.offset) && f.locked
              else
                bytes == ReadAt(f.vnode.data, old(f.offset), size) &&
                r == Success(|bytes|) && 0 <= r.retval <= size &&
                f.offset == old(f.offset) + r.retval && !f.locked
  {
    bytes := [];
    var got := table.Get(fd);
    if got.Err? {
      return Failure(got.error), bytes;
    }
    var file := got.value;
    if file.locked {
      return Hangs, bytes;
    }
    file.Lock();
    if file.accmode == O_WRONLY {
      file.Unlock();
      return Failure(EACCES), bytes;
    }
    var res, uio := file.vnode.Read(file.offset, size);
    if res.Err? {
      return Failure(res.error), bytes;
    }
    file.offset := uio.offset;
    file.Unlock();
    table.Put(fd, file);
    bytes := res.value;
    r := Success(size - uio.resid);
  }

  /** write(): look the descriptor up, lock the offset, refuse read-only
      files, write `data` at the offset, advance it by the bytes moved. */
  method SysWrite(table: FileTable, fd: int, data: seq<byte>) returns (r: SysResult)
    requires table.Valid()
    modifies table.FileAt(fd), table.VnodeAt(fd)
    ensures table.Valid()
    ensures !table.IsOpen(fd) ==> r == Failure(EBADF)
    ensures table.IsOpen(fd) ==>
              var f := table.slots[fd];
              f.refcount == old(f.refcount) &&
              if old(f.locked) then
                r == Hangs && f.offset == old(f.offset) && f.locked &&
                f.vnode.data == old(f.vnode.data)
              else if f.accmode == O_RDONLY then
                r == Failure(EACCES) && f.offset == old(f.offset) && !f.locked &&
                f.vnode.data == old(f.vnode.data)
              else if f.vnode.fault.Some? then
                // returns with the offset lock still held
                r == Failure(f.vnode.fault.value) && f.offset == old(f.offset) && f.locked &&
                f.vnode.data == old(f.vnode.data)
              else
                f.vnode.data == WriteAt(old(f.vnode.data), old(f.offset), data) &&
                r == Success(|data|) && f.offset == old(f.offset) + |data| && !f.locked
  {
    var got := table.Get(fd);
    if got.Err? {
      return Failure(got.error);
    }
    var file := got.value;
    if file.locked {
      return Hangs;
    }
    file.Lock();
    if file.accmode == O_RDONLY {
      file.Unlock();
      return Failure(EACCES);
    }
    var err, uio := file.vnode.Write(file.offset, data);
    if err.Some? {
      return Failure(err.value);
    }
    file.offset := uio.offset;
    file.Unlock();
    table.Put(fd, file);
    r := Success(|data| - uio.resid);
  }

  /** close(): a descriptor out of range fails the KASSERT and panics the
      kernel. Otherwise empty slot `fd` and drop the reference it held;
      ENOENT if it held none. */
  method SysClose(table: FileTable, fd: int) returns (r: SysResult)
    requires table.Valid()
    modifies table.slots, table.FileAt(fd)
    ensures table.Valid()
    ensures !table.OkFd(fd) ==> r == Panics && table.slots[..] == old(table.slots[..])
    ensures table.OkFd(fd) ==> table.slots[..] == old(table.slots[..])[fd := null]
    ensures table.OkFd(fd) && old(table.slots[fd]) == null ==> r == Failure(ENOENT)
    ensures table.OkFd(fd) && old(table.slots[fd]) != null ==>
              var f := old(table.slots[fd]);
              r == Success(0) && f.refcount == old(f.refcount) - 1 &&
              f.offset == old(f.offset) && f.locked == old(f.locked)
  {
    if !table.OkFd(fd) {
      return Panics;
    }
    ghost var before := table.slots[..];
    var file := table.PlaceAt(null, fd);
    if file == null {
      assert table.slots[..] == before;
      return Failure(ENOENT);
    }
    assert before[fd] == file;
    OccurrencesPositive(before, file);
    file.Decref();
    ReleaseKeepsCounts(before, fd);
    r := Success(0);
  }

  /** The state the meld loop works on, read off the heap. */
  ghost function View(file1: OpenFile, file2: OpenFile, file3: OpenFile,
                      buffer1: array<byte>, buffer2: array<byte>): Chunks
    reads file1, file2, file3, file3.vnode, buffer1, buffer2
  {
    Chunks(file1.offset, file2.offset, buffer1[..], buffer2[..], file3.vnode.data, file3.offset)
  }

  /** One read of the meld loop: under the offset lock, read 4 bytes of
      `file` at its offset into `buffer` and advance the offset. On a read
      error it returns at once, with the lock held. */
  method ReadChunkLocked(file: OpenFile, buffer: array<byte>) returns (err: Option<Errno>)
    requires !file.locked && buffer.Length == CHUNK
    modifies file, buffer
    ensures err == file.vnode.fault
    ensures file.refcount == old(file.refcount)
    ensures err.Some? ==> file.locked && file.offset == old(file.offset) && buffer[..] == old(buffer[..])
    ensures err.None? ==>
              !file.locked &&
              (buffer[..], file.offset) == ReadChunk(file.vnode.data, old(file.offset), old(buffer[..]))
  {
    file.Lock();
    var res, uio := file.vnode.Read(file.offset, CHUNK);
    if res.Err? {
      return Some(res.error);
    }
    // the uio fills the front of the buffer and leaves the rest alone
    ghost var was := buffer[..];
    forall i | 0 <= i < |res.value| {
      buffer[i] := res.value[i];
    }
    assert buffer[..] == res.value + was[|res.value|..];
    file.offset := uio.offset;
    file.Unlock();
    err := None;
  }

  /** One write of the meld loop: under the offset lock, write all 4 bytes
      of `buffer` at the offset of `file` and advance the offset. On a write
      error it returns at once, with the lock held. */
  method WriteChunkLocked(file: OpenFile, buffer: array<byte>) returns (err: Option<Errno>)
    requires !file.locked && buffer.Length == CHUNK
    modifies file, file.vnode
    ensures err == file.vnode.fault
    ensures file.refcount == old(file.refcount)
    ensures err.Some? ==> file.locked && file.offset == old(file.offset) && file.vnode.data == old(file.vnode.data)
    ensures err.None? ==>
              !file.locked && file.offset == old(file.offset) + CHUNK &&
              file.vnode.data == WriteAt(old(file.vnode.data), old(file.offset), buffer[..])
  {
    file.Lock();
    var e, uio := file.vnode.Write(file.offset, buffer[..]);
    if e.Some? {
      return e;
    }
    file.offset := uio.offset;
    file.Unlock();
    err := None;
  }

  /** What a meld pass that stops at a failing transfer leaves behind, when
      it started from source offsets `o1`, `o2`, destination offset `o3` and
      destination contents `dest`: the failing file's offset lock stays held
      and the locks taken before it are released, nothing reaches the
      destination, and a source advances only if its read came before the
      failure. */
  predicate FailedPass(file1: OpenFile, file2: OpenFile, file3: OpenFile, o1: nat, o2: nat, o3: nat, dest: seq<byte>)
    reads file1, file2, file3, file1.vnode, file2.vnode, file3.vnode
  {
    (file1.vnode.fault.Some? ==> file1.locked) &&
    (file1.vnode.fault.None? && file2.vnode.fault.Some? ==> file2.locked && !file1.locked) &&
    (file1.vnode.fault.None? && file2.vnode.fault.None? ==> file3.locked && !file1.locked && !file2.locked) &&
    file3.vnode.data == dest && file3.offset == o3 &&
    file1.offset == o1 + ReadBefore(file1.vnode, o1, file1.vnode.fault.Some?) &&
    file2.offset == o2 + ReadBefore(file2.vnode, o2, file1.vnode.fault.Some? || file2.vnode.fault.Some?)
  }

  /** How far a source's 4-byte read at `offset` moves its offset: nothing
      when the pass failed before that read. */
  function ReadBefore(v: Vnode, offset: nat, failedEarlier: bool): (k: nat)
    reads v
    ensures k <= CHUNK
    ensures failedEarlier ==> k == 0
    ensures !failedEarlier ==> offset + k == ReadChunk(v.data, offset, Zeros(CHUNK)).1
  {
    if failedEarlier then 0 else ReadCount(|v.data|, offset, CHUNK)
  }

  /** One pass of the meld loop body: read a chunk of each source into its
      buffer, then write buffer 1 and buffer 2 to the destination. The first
      failing transfer ends the pass with its lock held. */
  method MeldIteration(file1: OpenFile, file2: OpenFile, file3: OpenFile,
                       buffer1: array<byte>, buffer2: array<byte>) returns (err: Option<Errno>)
    requires file1 != file2 && file1 != file3 && file2 != file3 && buffer1 != buffer2
    requires file3.vnode != file1.vnode && file3.vnode != file2.vnode
    requires !file1.locked && !file2.locked && !file3.locked
    requires buffer1.Length == CHUNK && buffer2.Length == CHUNK
    modifies file1, file2, file3, file3.vnode, buffer1, buffer2
    ensures file1.refcount == old(file1.refcount) && file2.refcount == old(file2.refcount) &&
            file3.refcount == old(file3.refcount)
    ensures err == FirstFault(file1.vnode.fault, file2.vnode.fault, file3.vnode.fault)
    ensures err.None? ==>
              !file1.locked && !file2.locked && !file3.locked &&
              View(file1, file2, file3, buffer1, buffer2) ==
              MeldStep(file1.vnode.data, file2.vnode.data, old(View(file1, file2, file3, buffer1, buffer2)))
    ensures err.Some? ==>
              FailedPass(file1, file2, file3, old(file1.offset), old(file2.offset), old(file3.offset),
                         old(file3.vnode.data))
  {
    err := ReadChunkLocked(file1, buffer1);
    if err.Some? {
      return;
    }
    err := ReadChunkLocked(file2, buffer2);
    if err.Some? {
      return;
    }
    err := WriteChunkLocked(file3, buffer1);
    if err.Some? {
      return;
    }
    err := WriteChunkLocked(file3, buffer2);
  }

  /** The meld loop: while `counter < size / 2`, read a chunk of each source
      into its buffer, write both buffers to the destination, and add 4 to
      `counter`. A transfer error ends the loop with that transfer's lock
      still held. */
  method MeldChunks(file1: OpenFile, file2: OpenFile, file3: OpenFile,
                    buffer1: array<byte>, buffer2: array<byte>, size: int) returns (err: Option<Errno>)
    requires file1 != file2 && file1 != file3 && file2 != file3 && buffer1 != buffer2
    requires file3.vnode != file1.vnode && file3.vnode != file2.vnode
    requires !file1.locked && !file2.locked && !file3.locked
    requires buffer1.Length == CHUNK && buffer2.Length == CHUNK
    modifies file1, file2, file3, file3.vnode, buffer1, buffer2
    ensures file1.refcount == old(file1.refcount) && file2.refcount == old(file2.refcount) &&
            file3.refcount == old(file3.refcount)
    ensures err == if size / 2 > 0 then FirstFault(file1.vnode.fault, file2.vnode.fault, file3.vnode.fault) else None
    ensures err.None? ==>
              !file1.locked && !file2.locked && !file3.locked &&
              View(file1, file2, file3, buffer1, buffer2) ==
              MeldRun(file1.vnode.data, file2.vnode.data, old(View(file1, file2, file3, buffer1, buffer2)), 0, size / 2)
    // a fault can only stop the first pass, so the destination is untouched
    ensures err.Some? ==>
              FailedPass(file1, file2, file3, old(file1.offset), old(file2.offset), old(file3.offset),
                         old(file3.vnode.data))
  {
    ghost var d1, d2 := file1.vnode.data, file2.vnode.data;
    ghost var start := View(file1, file2, file3, buffer1, buffer2);
    var counter := 0;
    while counter < size / 2
      invariant 0 <= counter
      invariant !file1.locked && !file2.locked && !file3.locked
      invariant file1.vnode.data == d1 && file2.vnode.data == d2
      invariant file1.refcount == old(file1.refcount) && file2.refcount == old(file2.refcount) &&
                file3.refcount == old(file3.refcount)
      invariant counter > 0 ==> FirstFault(file1.vnode.fault, file2.vnode.fault, file3.vnode.fault).None?
      invariant counter == 0 ==>
                  file1.offset == old(file1.offset) && file2.offset == old(file2.offset) &&
                  file3.offset == old(file3.offset) && file3.vnode.data == old(file3.vnode.data)
      invariant MeldRun(d1, d2, View(file1, file2, file3, buffer1, buffer2), counter, size / 2) ==
                MeldRun(d1, d2, start, 0, size / 2)
      decreases size / 2 - counter
    {
      err := MeldIteration(file1, file2, file3, buffer1, buffer2);
      if err.Some? {
        assert counter == 0;
        return;
      }
      counter := counter + CHUNK;
    }
    err := None;
  }

  /** The mode sys_meld passes to every open: 0664 in C's octal. */
  const MELD_MODE := 436

  /** The flags sys_meld opens its destination with: a new file, write-only. */
  const MELD_DEST_FLAGS: Flags := O_WRONLY | O_CREAT | O_EXCL

  /** Whether sys_meld gets past its three opens: every path is copied in,
      both sources exist, and the destination does not. */
  ghost predicate MeldOpens(names: map<string, Vnode>, pn1: UserPath, pn2: UserPath, pn3: UserPath)
  {
    pn1.Path? && pn2.Path? && pn3.Path? &&
    OpenError(names, pn1.name, O_RDWR).None? && OpenError(names, pn2.name, O_RDWR).None? &&
    OpenError(names, pn3.name, MELD_DEST_FLAGS).None?
  }

  /** The opens of sys_meld: both sources read-write, then the destination as
      a new write-only file. Any failure of a source open is reported as
      ENOENT and a failure of the destination open as EEXIST, whatever
      openfile_open said. */
  method OpenMeldFiles(vfs: Vfs, path1: string, path2: string, path3: string)
    returns (err: Option<Errno>, file1: OpenFile?, file2: OpenFile?, file3: OpenFile?)
    modifies vfs
    ensures OpenError(old(vfs.names), path1, O_RDWR).Some? ==> err == Some(ENOENT)
    ensures OpenError(old(vfs.names), path1, O_RDWR).None? && OpenError(old(vfs.names), path2, O_RDWR).Some? ==>
              err == Some(ENOENT)
    ensures OpenError(old(vfs.names), path1, O_RDWR).None? && OpenError(old(vfs.names), path2, O_RDWR).None? &&
            OpenError(old(vfs.names), path3, MELD_DEST_FLAGS).Some? ==>
              err == Some(EEXIST)
    ensures err.Some? ==> vfs.names == old(vfs.names)
    ensures err.None? <==>
              OpenError(old(vfs.names), path1, O_RDWR).None? && OpenError(old(vfs.names), path2, O_RDWR).None? &&
              OpenError(old(vfs.names), path3, MELD_DEST_FLAGS).None?
    ensures err.None? ==>
              file1 != null && file2 != null && file3 != null &&
              fresh(file1) && fresh(file2) && fresh(file3) &&
              file1 != file2 && file1 != file3 && file2 != file3 &&
              file1.vnode == old(vfs.names)[path1] && file2.vnode == old(vfs.names)[path2] &&
              path3 !in old(vfs.names) && fresh(file3.vnode) && file3.vnode.data == [] &&
              vfs.names == old(vfs.names)[path3 := file3.vnode] &&
              file1.accmode == O_RDWR && file2.accmode == O_RDWR && file3.accmode == O_WRONLY &&
              file1.offset == 0 && file2.offset == 0 && file3.offset == 0 &&
              file1.refcount == 1 && file2.refcount == 1 && file3.refcount == 1 &&
              !file1.locked && !file2.locked && !file3.locked
  {
    file1, file2, file3 := null, null, null;
    var made := OpenfileOpen(vfs, path1, O_RDWR, MELD_MODE);
    if made.Err? {
      return Some(ENOENT), file1, file2, file3;
    }
    file1 := made.value;
    made := OpenfileOpen(vfs, path2, O_RDWR, MELD_MODE);
    if made.Err? {
      // file1 is abandoned with its reference
      return Some(ENOENT), file1, file2, file3;
    }
    file2 := made.value;
    made := OpenfileOpen(vfs, path3, MELD_DEST_FLAGS, MELD_MODE);
    if made.Err? {
      return Some(EEXIST), file1, file2, file3;
    }
    file3 := made.value;
    err := None;
  }

  /** The three filetable_place calls of sys_meld, in order. EMFILE from any
      of them is returned as it is, leaving the files placed before it in
      the table. */
  method PlaceMeldFiles(table: FileTable, file1: OpenFile, file2: OpenFile, file3: OpenFile)
    returns (err: Option<Errno>, ghost fd1: int, ghost fd2: int, fd3: int)
    requires table.Valid()
    requires file1 != file2 && file1 != file3 && file2 != file3
    requires file1 !in table.slots[..] && file2 !in table.slots[..] && file3 !in table.slots[..]
    requires file1.refcount >= 1 && file2.refcount >= 1 && file3.refcount >= 1
    modifies table.slots
    ensures table.Valid()
    ensures err.Some? <==> Occurrences(old(table.slots[..]), null) < 3
    ensures err.Some? ==>
              err == Some(EMFILE) && null !in table.slots[..] && FillsFree(old(table.slots[..]), table.slots[..])
    ensures err.None? ==>
              0 <= fd1 < table.slots.Length && 0 <= fd2 < table.slots.Length && 0 <= fd3 < table.slots.Length &&
              fd1 != fd2 && fd1 != fd3 && fd2 != fd3 &&
              old(table.slots[fd1]) == null && old(table.slots[fd2]) == null && old(table.slots[fd3]) == null &&
              table.slots[..] == old(table.slots[..])[fd1 := file1][fd2 := file2][fd3 := file3]
  {
    fd1, fd2, fd3 := -1, -1, -1;
    ghost var s0 := table.slots[..];
    var placed := PlaceOpened(table, file1);
    if placed.Err? {
      return Some(placed.error), fd1, fd2, fd3;
    }
    fd1 := placed.value;
    ghost var s1 := table.slots[..];
    assert file2 !in s1 && file3 !in s1 && FillsFree(s0, s1);
    placed := PlaceOpened(table, file2);
    if placed.Err? {
      return Some(placed.error), fd1, fd2, fd3;
    }
    fd2 := placed.value;
    ghost var s2 := table.slots[..];
    assert file3 !in s2 && FillsFree(s0, s2);
    placed := PlaceOpened(table, file3);
    if placed.Err? {
      return Some(placed.error), fd1, fd2, fd3;
    }
    fd3 := placed.value;
    err := None;
  }

  /** The clean-up of sys_meld: the KASSERT on `fd`, then three
      filetable_placeat calls, all on `fd` (the destination's slot), whose
      results land in the variables file1, file2 and file3 in turn. The second
      always takes out an empty slot, so the call always reports ENOENT: the
      sources stay in the table and no reference is dropped. */
  method MeldCleanup(table: FileTable, fd: int) returns (r: SysResult)
    requires table.Valid()
    modifies table.slots
    ensures table.Valid()
    ensures !table.OkFd(fd) ==> r == Panics && table.slots[..] == old(table.slots[..])
    ensures table.OkFd(fd) ==> r == Failure(ENOENT) && table.slots[..] == old(table.slots[..])[fd := null]
  {
    if !table.OkFd(fd) {
      return Panics;
    }
    ghost var before := table.slots[..];
    var prev1 := table.PlaceAt(null, fd);
    ghost var emptied := table.slots[..];
    var prev2 := table.PlaceAt(null, fd);
    var prev3 := table.PlaceAt(null, fd);
    assert table.slots[..] == emptied;
    if prev1 == null {
      assert table.slots[..] == before;
      return Failure(ENOENT);
    }
    ReleaseKeepsCounts(before, fd);
    // the slot was emptied by the first call, so the second check fails and
    // the decrefs after it are never reached
    assert prev2 == null;
    r := Failure(ENOENT);
  }

  /** A 4-byte kernel buffer holding `junk`, the unspecified contents of
      fresh kmalloc memory. */
  method NewBuffer(junk: seq<byte>) returns (buffer: array<byte>)
    requires |junk| == CHUNK
    ensures fresh(buffer) && buffer[..] == junk
  {
    buffer := new byte[CHUNK](i => if 0 <= i < |junk| then junk[i] else 0);
  }

  /** The transfer part of sys_meld: take the sources' sizes, allocate the
      two buffers, and run the meld loop for half the combined size. */
  method MeldSources(file1: OpenFile, file2: OpenFile, file3: OpenFile, junk1: seq<byte>, junk2: seq<byte>)
    returns (err: Option<Errno>)
    requires file1 != file2 && file1 != file3 && file2 != file3
    requires !file1.locked && !file2.locked && !file3.locked
    requires file1.offset == 0 && file2.offset == 0 && file3.offset == 0 && file3.vnode.data == []
    requires file3.vnode != file1.vnode && file3.vnode != file2.vnode
    requires |junk1| == CHUNK && |junk2| == CHUNK
    modifies file1, file2, file3, file3.vnode
    ensures file1.refcount == old(file1.refcount) && file2.refcount == old(file2.refcount) &&
            file3.refcount == old(file3.refcount)
    ensures var d1, d2 := file1.vnode.data, file2.vnode.data;
            var t := MeldRun(d1, d2, Start(junk1, junk2), 0, Limit(d1, d2));
            (err == if Limit(d1, d2) > 0 then FirstFault(file1.vnode.fault, file2.vnode.fault, file3.vnode.fault)
                    else None) &&
            (err.Some? ==> FailedPass(file1, file2, file3, 0, 0, 0, [])) &&
            (err.None? ==>
               file3.vnode.data == t.dest && file3.offset == t.off3 &&
               file1.offset == t.off1 && file2.offset == t.off2 && !file1.locked && !file2.locked)
  {
    // VOP_STAT's result is not checked; st_size is the file's length
    var size := file1.vnode.Size();
    size := size + file2.vnode.Size();

    var buffer1 := NewBuffer(junk1);
    var buffer2 := NewBuffer(junk2);
    ghost var d1, d2 := file1.vnode.data, file2.vnode.data;
    assert View(file1, file2, file3, buffer1, buffer2) == Start(junk1, junk2);
    assert size / 2 == Limit(d1, d2);
    err := MeldChunks(file1, file2, file3, buffer1, buffer2, size);
  }

  /** The part of sys_meld after the opens: place the three files in the
      table, run the meld loop for half the sources' combined size, store the
      destination offset as the return value, and clean up. */
  method MeldFiles(table: FileTable, file1: OpenFile, file2: OpenFile, file3: OpenFile,
                   junk1: seq<byte>, junk2: seq<byte>)
    returns (r: SysResult, retval: Option<int>, ghost fd1: int, ghost fd2: int, ghost fd3: int)
    requires table.Valid()
    requires file1 != file2 && file1 != file3 && file2 != file3
    requires file1 !in table.slots[..] && file2 !in table.slots[..] && file3 !in table.slots[..]
    requires file1.refcount >= 1 && file2.refcount >= 1 && file3.refcount >= 1
    requires !file1.locked && !file2.locked && !file3.locked
    requires file1.offset == 0 && file2.offset == 0 && file3.offset == 0 && file3.vnode.data == []
    requires file3.vnode != file1.vnode && file3.vnode != file2.vnode
    requires |junk1| == CHUNK && |junk2| == CHUNK
    modifies table.slots, file1, file2, file3, file3.vnode
    ensures table.Valid()
    ensures file1.refcount == old(file1.refcount) && file2.refcount == old(file2.refcount) &&
            file3.refcount == old(file3.refcount)
    ensures Occurrences(old(table.slots[..]), null) < 3 ==>
              r == Failure(EMFILE) && retval == None && null !in table.slots[..] &&
              FillsFree(old(table.slots[..]), table.slots[..])
    ensures Occurrences(old(table.slots[..]), null) >= 3 ==>
              0 <= fd1 < table.slots.Length && 0 <= fd2 < table.slots.Length && 0 <= fd3 < table.slots.Length &&
              fd1 != fd2 && fd1 != fd3 && fd2 != fd3 &&
              old(table.slots[fd1]) == null && old(table.slots[fd2]) == null && old(table.slots[fd3]) == null &&
              var d1, d2 := file1.vnode.data, file2.vnode.data;
              var fault := if Limit(d1, d2) > 0 then FirstFault(file1.vnode.fault, file2.vnode.fault, file3.vnode.fault)
                           else None;
              (fault.Some? ==>
                 r == Failure(fault.value) && retval == None &&
                 table.slots[..] == old(table.slots[..])[fd1 := file1][fd2 := file2][fd3 := file3] &&
                 FailedPass(file1, file2, file3, 0, 0, 0, [])) &&
              (fault.None? ==>
                 var t := MeldRun(d1, d2, Start(junk1, junk2), 0, Limit(d1, d2));
                 r == Failure(ENOENT) && retval == Some(t.off3) && file3.vnode.data == t.dest &&
                 file1.offset == t.off1 && file2.offset == t.off2 && !file1.locked && !file2.locked &&
                 table.slots[..] == old(table.slots[..])[fd1 := file1][fd2 := file2] &&
                 (|d1| == |d2| && |d1| % CHUNK == 0 ==> file3.vnode.data == Interleave(d1, d2)))
  {
    retval := None;
    var err, fd;
    err, fd1, fd2, fd := PlaceMeldFiles(table, file1, file2, file3);
    fd3 := fd;
    if err.Some? {
      return Failure(err.value), retval, fd1, fd2, fd3;
    }

    ghost var placed := table.slots[..];
    ghost var d1, d2 := file1.vnode.data, file2.vnode.data;
    err := MeldSources(file1, file2, file3, junk1, junk2);
    assert table.slots[..] == placed;
    if err.Some? {
      return Failure(err.value), retval, fd1, fd2, fd3;
    }
    retval := Some(file3.offset);
    r := MeldCleanup(table, fd);
    assert placed[fd := null] == old(table.slots[..])[fd1 := file1][fd2 := file2];
    if |d1| == |d2| && |d1| % CHUNK == 0 {
      MeldOfAlignedSources(d1, d2, junk1, junk2);
    }
  }

  /** meld(): copy the three paths in, open the two sources read-write and a
      new destination write-only, place all three in the descriptor table,
      and run the meld loop for half the sources' combined size. The call
      then stores the destination offset as its return value, empties the
      destination's slot, and reports ENOENT.
      `junk1` and `junk2` are what the two kmalloc'd buffers hold before the
      first read. */
  method SysMeld(vfs: Vfs, table: FileTable, pn1: UserPath, pn2: UserPath, pn3: UserPath,
                 junk1: seq<byte>, junk2: seq<byte>)
    returns (r: SysResult, retval: Option<int>, ghost fd1: int, ghost fd2: int, ghost fd3: int)
    requires table.Valid()
    requires |junk1| == CHUNK && |junk2| == CHUNK
    modifies vfs, table.slots
    ensures table.Valid()
    // copyinstr's error is passed on as it is
    ensures pn1.Unreadable? ==> r == Failure(pn1.err)
    ensures pn1.Path? && pn2.Unreadable? ==> r == Failure(pn2.err)
    ensures pn1.Path? && pn2.Path? && pn3.Unreadable? ==> r == Failure(pn3.err)
    // any failure of a source open is reported as ENOENT, of the destination open as EEXIST
    ensures pn1.Path? && pn2.Path? && pn3.Path? ==>
              (OpenError(old(vfs.names), pn1.name, O_RDWR).Some? ==> r == Failure(ENOENT)) &&
              (OpenError(old(vfs.names), pn1.name, O_RDWR).None? &&
                 OpenError(old(vfs.names), pn2.name, O_RDWR).Some? ==>
                 r == Failure(ENOENT)) &&
              (OpenError(old(vfs.names), pn1.name, O_RDWR).None? &&
                 OpenError(old(vfs.names), pn2.name, O_RDWR).None? &&
                 OpenError(old(vfs.names), pn3.name, MELD_DEST_FLAGS).Some? ==>
                 r == Failure(EEXIST))
    ensures !MeldOpens(old(vfs.names), pn1, pn2, pn3) ==>
              retval == None && vfs.names == old(vfs.names) && table.slots[..] == old(table.slots[..])
    ensures MeldOpens(old(vfs.names), pn1, pn2, pn3) ==>
              pn3.name !in old(vfs.names) && pn3.name in vfs.names && fresh(vfs.names[pn3.name]) &&
              vfs.names == old(vfs.names)[pn3.name := vfs.names[pn3.name]]
    // fewer than three free slots: EMFILE, with whatever was placed left in the table
    ensures MeldOpens(old(vfs.names), pn1, pn2, pn3) && Occurrences(old(table.slots[..]), null) < 3 ==>
              r == Failure(EMFILE) && retval == None && null !in table.slots[..] &&
              FillsFree(old(table.slots[..]), table.slots[..])
    ensures MeldOpens(old(vfs.names), pn1, pn2, pn3) && Occurrences(old(table.slots[..]), null) >= 3 ==>
              0 <= fd1 < table.slots.Length && 0 <= fd2 < table.slots.Length && 0 <= fd3 < table.slots.Length &&
              fd1 != fd2 && fd1 != fd3 && fd2 != fd3 &&
              old(table.slots[fd1]) == null && old(table.slots[fd2]) == null && old(table.slots[fd3]) == null &&
              var f1, f2 := table.slots[fd1], table.slots[fd2];
              var v1, v2, v3 := old(vfs.names)[pn1.name], old(vfs.names)[pn2.name], vfs.names[pn3.name];
              var d1, d2 := old(vfs.names[pn1.name].data), old(vfs.names[pn2.name].data);
              var fault := if Limit(d1, d2) > 0 then FirstFault(v1.fault, v2.fault, v3.fault) else None;
              f1 != null && f2 != null && fresh(f1) && fresh(f2) &&
              f1.vnode == v1 && f2.vnode == v2 && v1.data == d1 && v2.data == d2 &&
              f1.accmode == O_RDWR && f2.accmode == O_RDWR && f1.refcount == 1 && f2.refcount == 1 &&
              (fault.Some? ==>
                 // the failing transfer's offset lock stays held and all three files stay open
                 r == Failure(fault.value) && retval == None &&
                 table.slots[fd3] != null && fresh(table.slots[fd3]) && table.slots[fd3].vnode == v3 &&
                 table.slots[fd3].refcount == 1 &&
                 table.slots[..] == old(table.slots[..])[fd1 := f1][fd2 := f2][fd3 := table.slots[fd3]] &&
                 FailedPass(f1, f2, table.slots[fd3], 0, 0, 0, [])) &&
              (fault.None? ==>
                 // the loop ran to its end; only the destination's slot is emptied, and the call reports ENOENT
                 var t := MeldRun(d1, d2, Start(junk1, junk2), 0, Limit(d1, d2));
                 r == Failure(ENOENT) && retval == Some(t.off3) && v3.data == t.dest &&
                 f1.offset == t.off1 && f2.offset == t.off2 && !f1.locked && !f2.locked &&
                 table.slots[..] == old(table.slots[..])[fd1 := f1][fd2 := f2] &&
                 (|d1| == |d2| && |d1| % CHUNK == 0 ==> v3.data == Interleave(d1, d2)))
  {
    retval, fd1, fd2, fd3 := None, -1, -1, -1;
    if pn1.Unreadable? {
      return Failure(pn1.err), retval, fd1, fd2, fd3;
    }
    if pn2.Unreadable? {
      return Failure(pn2.err), retval, fd1, fd2, fd3;
    }
    if pn3.Unreadable? {
      return Failure(pn3.err), retval, fd1, fd2, fd3;
    }
    var err, file1, file2, file3 := OpenMeldFiles(vfs, pn1.name, pn2.name, pn3.name);
    if err.Some? {
      return Failure(err.value), retval, fd1, fd2, fd3;
    }
    r, retval, fd1, fd2, fd3 := MeldFiles(table, file1, file2, file3, junk1, junk2);
  }
}
