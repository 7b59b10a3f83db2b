# File system calls of an OS/161 kernel, in Dafny

This project models the file-descriptor system calls of `kern/syscall/file_syscalls.c`: `open`, `read`, `write`, `close` and the compound `meld`. It proves what each call does to the process's descriptor table, the shared open-file objects and the files behind them.

The state is imperative, as in the kernel:
- `FileTables.FileTable` holds a fixed-size array of slots. Each slot is empty (`null`) or holds an `OpenFiles.OpenFile`.
- `OpenFile` holds the vnode, the access mode, the seek offset, the reference count and whether the offset lock is held.
- `Vnodes.Vnode` holds a file's bytes.
- `Vnodes.Vfs` is the name space that `vfs_open` looks names up in and creates files in.

The descriptor table, which the kernel reaches through `curproc->p_filetable`, is passed to each call explicitly.

Every call keeps the table invariant `FileTable.Valid`: each open file in the table holds at least one reference per slot that points at it.

The model follows the code as written, including its defects:
- When `VOP_READ` or `VOP_WRITE` fails, `read`, `write` and the meld loop return with the offset lock still held. The file's `locked` flag stays set. A later call that acquires that lock returns `Hangs`, because `lock_acquire` would never return.
- The meld loop writes both 4-byte buffers whole after every pair of reads, whatever the reads delivered. A short or empty read therefore re-emits bytes an earlier read left in the buffer, or the kmalloc'd contents. `MeldSpec.MeldRun` is the loop on values. `MeldRepeatsStaleChunk` shows melding `"AAAABBBB"` with `"dddd"` writing `"AAAAddddBBBBdddd"`, 16 bytes from 12.
- The clean-up of `meld` calls `filetable_placeat` three times on the destination's descriptor. The second call always finds the slot empty, so `meld` reports `ENOENT` after the loop completes. It also leaves both sources in the table with their references.
- When the table is full, `open` returns `EMFILE` without dropping the reference of the file it has just opened. That file is in no slot, so it can never be closed. `SysOpen` returns this file as the ghost out-parameter `newFile`, and its contract says the file is fresh, is in no slot and still holds its one reference.
- The early returns of `meld` abandon what was done before them. A failing second or third open leaves the files already opened open. `EMFILE` leaves the files already placed in the table. A failing transfer leaves all three files in their slots. `SysMeld`'s contract says which slots are filled on each of these paths.
- `close` and the clean-up of `meld` check the descriptor with `KASSERT`, so an out-of-range descriptor panics the kernel rather than returning `EBADF`. This outcome is the result `Panics`.

For two sources of equal length that is a multiple of 4, the loop writes their 4-byte interleaving (`MeldSpec.Interleave`). The meld test program's `"AAAABBBBCCCC"` and `"ddddeeeeffff"` give `"AAAAddddBBBBeeeeCCCCffff"`, with the destination offset at 24.

Where a careful implementation would behave differently, the model states what the code does:
- A careful implementation releases the offset lock on every error path. This code keeps it held when a transfer fails.
- A descriptor table usually hands out the lowest free slot. The slot-choice rule lives in filetable.c, which is not part of this model, so `FileTable.Place` promises only some free slot.
- A finished `meld` would close all three files and return the number of bytes written. This code empties one slot and returns `ENOENT`. The offset it stores in `*retval` is modelled as `retval`.
- A failing `meld` would release its locks and drop its descriptors. This code returns with the failing transfer's lock held and all three files in the table.

## Model

| member | source | states |
|---|---|---|
| FileSyscalls.SysOpen | kern/syscall/file_syscalls.c:27-66 | EINVAL exactly when the flags equal the OR of O_ACCMODE, O_CREAT, O_EXCL, O_TRUNC, O_APPEND and O_NOCTTY. An unreadable path or a failing openfile_open gives EFAULT. Before the placement nothing changes. A full table gives EMFILE, and the file just opened (`newFile`) is leaked: it is in no slot and keeps its one reference. On success the result is a slot that was free and now holds a fresh open file: the path's vnode, the flags' access mode, offset 0, one reference, unlocked. No other slot changes, and the table invariant is kept. |
| FileSyscalls.PlaceOpened | kern/syscall/file_syscalls.c:59-63 | Placing a new file succeeds exactly when a slot is free. It fills one free slot and changes no other. It keeps the reference-count invariant, and on failure gives EMFILE with the table unchanged. |
| FileSyscalls.SysRead | kern/syscall/file_syscalls.c:82-133 | A bad descriptor gives EBADF. A write-only file gives EACCES with the offset unchanged and the lock released. A failing VOP_READ returns its error with the lock held. A held lock means the call never returns. On success the bytes are the file's bytes from the old offset, and the offset advances by exactly their number, which is the return value (`size - resid`) and at most `size`. Reference counts are unchanged. |
| FileSyscalls.SysWrite | kern/syscall/file_syscalls.c:138-177 | As for read: EBADF, EACCES on a read-only file with the file untouched, the VOP_WRITE error with the lock held, and a hang on a held lock. On success the bytes land at the offset, the offset advances by their number, and that number is returned. |
| FileSyscalls.SysClose | kern/syscall/file_syscalls.c:182-204 | A descriptor out of range fails the KASSERT: the result is Panics and the table is unchanged. For a descriptor in range, the slot is emptied and nothing else in the table changes. ENOENT if it was empty. Otherwise the previous file loses exactly one reference and the call returns 0. The invariant is kept. |
| FileSyscalls.ReadChunkLocked | kern/syscall/file_syscalls.c:289-311 | One locked 4-byte read of the meld loop. The buffer and offset become the ReadChunk of the file's bytes. On a read error the lock stays held and nothing else changes. |
| FileSyscalls.WriteChunkLocked | kern/syscall/file_syscalls.c:313-335 | One locked write of a whole 4-byte buffer at the destination offset. The offset advances by 4. On a write error the lock stays held and the file is unchanged. |
| FileSyscalls.MeldIteration | kern/syscall/file_syscalls.c:288-335 | One pass of the loop body is MeldStep on the heap state. Its error is the first failing transfer's, and that transfer's lock stays held (FailedPass). A failing pass writes nothing to the destination, and a source offset advances only if that source was read before the failure. |
| FileSyscalls.MeldChunks | kern/syscall/file_syscalls.c:286-338 | The loop `while (counter < size/2)` leaves the heap state equal to MeldRun from the starting state. If any pass runs, the error is the first transfer fault, with that transfer's lock held. A fault can stop only the first pass, so the destination and its offset are untouched. |
| FileSyscalls.OpenMeldFiles | kern/syscall/file_syscalls.c:244-260 | The sources are opened O_RDWR and any failure gives ENOENT. The destination is opened O_WRONLY with O_CREAT and O_EXCL and any failure, including an existing file, gives EEXIST. The opens succeed exactly when none of the three fails. The destination is then a new, empty file under its name. |
| FileSyscalls.PlaceMeldFiles | kern/syscall/file_syscalls.c:261-277 | EMFILE exactly when fewer than three slots are free. The table is then full, and only free slots were filled. Otherwise three distinct free slots receive the three files. |
| FileSyscalls.MeldCleanup | kern/syscall/file_syscalls.c:342-364 | A descriptor out of range fails the KASSERT: the result is Panics and the table is unchanged. Otherwise only the destination's slot is emptied, and the result is always ENOENT. The second placeat finds that slot already empty, so no reference is dropped. |
| FileSyscalls.MeldSources | kern/syscall/file_syscalls.c:279-338 | The loop bound is half the sources' combined size. After the loop the destination holds MeldRun's bytes from the kmalloc'd buffers, and the three offsets are MeldRun's. A fault gives the first transfer's error with its lock held, an empty destination at offset 0, and each source offset at 0 or past the one chunk read before the fault. |
| FileSyscalls.MeldFiles | kern/syscall/file_syscalls.c:261-364 | EMFILE when fewer than three slots are free. On a transfer fault, its error, with all three files left in their slots, the lock held and the destination still empty. Otherwise the destination holds MeldRun's bytes, `retval` is the destination offset, the result is ENOENT, and the sources stay in their slots. For equal-length, 4-aligned sources the destination is Interleave of the sources. |
| FileSyscalls.NewBuffer | kern/syscall/file_syscalls.c:220-221 | kmalloc gives a fresh 4-byte buffer whose contents are whatever the memory held (`junk`), not zeros. |
| FileSyscalls.SysMeld | kern/syscall/file_syscalls.c:211-373 | Every exit of meld, in order: the copyinstr error as returned; ENOENT for a source that does not open; EEXIST for a destination that exists; EMFILE; a transfer fault with its lock held, the destination empty and each source offset at 0 or past its first chunk. Otherwise completion reporting ENOENT with the destination's slot emptied and the sources left in the table. The destination's bytes are MeldRun's, and they are the interleaving for equal-length, 4-aligned sources. |
| FileTables.FileTable.OkFd | kern/syscall/file_syscalls.c:189 | filetable_okfd holds exactly when the descriptor is a slot number of the table: non-negative and below its size. |
| FileTables.FileTable.Put | kern/syscall/file_syscalls.c:121 | filetable_put leaves every slot of the table as it was. |
| FileTables.FileTable.Get | kern/syscall/file_syscalls.c:96-100 | filetable_get returns the slot's file exactly when the descriptor is in range and the slot is occupied, and EBADF otherwise. |
| FileTables.FileTable.Place | kern/syscall/file_syscalls.c:59-63 | filetable_place succeeds exactly when a slot is free. It fills a free slot, the free count drops by one, and no other slot changes. Failure gives EMFILE with the table unchanged. |
| FileTables.FileTable.PlaceAt | kern/syscall/file_syscalls.c:191 | filetable_placeat stores the value, changes no other slot, and returns what the slot held. |
| FileTables.OccurrencesPositive | kern/syscall/file_syscalls.c:193-200 | A file occurs in the table exactly when its slot count is positive. |
| FileTables.OccurrencesUpdate | kern/syscall/file_syscalls.c:191 | Replacing one slot changes the count of the old value by -1 and of the new value by +1. Every other value keeps its count. |
| FileTables.PlaceKeepsCounts | kern/syscall/file_syscalls.c:59-63 | Placing a new file that holds a reference in a free slot keeps the reference-count invariant. |
| FileTables.ReleaseKeepsCounts | kern/syscall/file_syscalls.c:191-200 | Emptying a slot while its file drops one reference keeps the reference-count invariant. |
| OpenFiles.OpenFile.Decref | kern/syscall/file_syscalls.c:200 | openfile_decref drops exactly one reference. |
| OpenFiles.OpenFile.Lock | kern/syscall/file_syscalls.c:102 | Acquiring the offset lock marks it held. |
| OpenFiles.OpenFile.Unlock | kern/syscall/file_syscalls.c:106 | Releasing the offset lock marks it free. |
| OpenFiles.OpenError | kern/syscall/file_syscalls.c:53-57 | openfile_open fails with EINVAL exactly on the access mode 3. Otherwise, without O_CREAT it fails (ENOENT) exactly when the name is missing; with O_CREAT and O_EXCL it fails (EEXIST) exactly when the name exists; with O_CREAT alone it does not fail. |
| OpenFiles.OpenfileOpen | kern/syscall/file_syscalls.c:53-57 | On failure it gives OpenError's code with the name space unchanged. On success it gives a fresh open file on the looked-up or newly created empty vnode, with the flags' access mode, offset 0, one reference, unlocked. |
| Vnodes.ReadCount | kern/syscall/file_syscalls.c:110-123 | A read of `len` moves at most `len` bytes, never past the end, and stops short only at the end. |
| Vnodes.ReadAt | kern/syscall/file_syscalls.c:110-118 | The bytes read are the file's bytes from the offset, as many as ReadCount says. |
| Vnodes.WriteAt | kern/syscall/file_syscalls.c:161-169 | The written bytes land at the offset and every other byte keeps its value. A gap past the old end reads as zeros, and the file grows to cover the write. |
| Vnodes.WriteThenRead | userland/testbin/meld/meld.c:105-118 | Reading back at the offset of a write returns exactly the written bytes. |
| Vnodes.ConsecutiveReads | kern/syscall/file_syscalls.c:110-123 | Two reads, the second from where the first ended, deliver the same bytes as one read of the combined length: no byte is skipped or delivered twice. |
| Vnodes.Vnode.Size | kern/syscall/file_syscalls.c:280-284 | VOP_STAT's st_size is where the file ends: a read there delivers nothing, and a one-byte read just before it delivers a byte. |
| Vnodes.Vnode.Read | kern/syscall/file_syscalls.c:112 | VOP_READ fails with the device's fault, or delivers ReadAt with the uio ending after the bytes moved and the rest as resid. |
| Vnodes.Vnode.Write | kern/syscall/file_syscalls.c:163 | VOP_WRITE fails with the device's fault and changes nothing, or writes all the bytes at the offset with resid 0. |
| Vnodes.LookupError | kern/syscall/file_syscalls.c:244-260 | vfs_open refuses a missing name without O_CREAT with ENOENT and an existing name under O_CREAT with O_EXCL with EEXIST; it accepts a name only when it exists or O_CREAT is given, and EEXIST only for an existing name. |
| Vnodes.Vfs.Open | kern/syscall/file_syscalls.c:53-57 | vfs_open refuses with LookupError and the name space unchanged. Otherwise it returns the existing vnode, or creates an empty one under the name. |
| Types.FirstFault | kern/syscall/file_syscalls.c:288-335 | A meld pass fails exactly when one of its transfers does, and then with the first failing transfer's error. |
| MeldSpec.ReadChunk | kern/syscall/file_syscalls.c:289-299 | A 4-byte read into the reused buffer overwrites its front with the bytes read. The rest keeps the earlier contents, and the offset advances by the bytes read. |
| MeldSpec.ReadFullChunk | kern/syscall/file_syscalls.c:289-299 | With 4 bytes left, the read fills the buffer with them. |
| MeldSpec.ReadPastEnd | kern/syscall/file_syscalls.c:302-311 | At or past the end, the read leaves the buffer and the offset as they were. |
| MeldSpec.MeldStep | kern/syscall/file_syscalls.c:288-335 | One iteration of the loop body on values; both buffers stay 4 bytes long. |
| MeldSpec.MeldStepWrites | kern/syscall/file_syscalls.c:288-335 | One iteration reads each source's next chunk over its buffer as ReadChunk does, writes buffer 1 and then buffer 2 at the destination offset, moves that offset on by 8, and keeps what the destination held before its offset. |
| MeldSpec.MeldRun | kern/syscall/file_syscalls.c:286-338 | The loop `while (counter < limit)` on values, one MeldStep per pass with `counter` rising by 4; both buffers stay 4 bytes long. |
| MeldSpec.MeldRunAdvances | kern/syscall/file_syscalls.c:286-338 | Each pass moves the destination offset on by 8, so it ends 8 times the number of iterations further on, and no source offset moves back. |
| MeldSpec.Limit | kern/syscall/file_syscalls.c:279-286 | The loop bound is half the sources' combined size, rounded down. |
| MeldSpec.Interleave | kern/syscall/file_syscalls.c:313-335 | The intended output of melding two equal-length sources: as long as both together, starting with source 1's first chunk and then source 2's. |
| MeldSpec.StepAppends | kern/syscall/file_syscalls.c:313-335 | One pass appends buffer 1 and then buffer 2, as they are after the reads, to the destination. |
| MeldSpec.MeldRunLength | kern/syscall/file_syscalls.c:286-338 | Whatever the reads return, the loop appends exactly 8 bytes per iteration and keeps what the destination held. The destination offset ends at its length. |
| MeldSpec.MeldRunAligned | kern/syscall/file_syscalls.c:286-338 | From an aligned point of two equal-length, 4-aligned sources, the loop appends the interleaving of what is left of them. |
| MeldSpec.MeldOfAlignedSources | kern/syscall/file_syscalls.c:279-341 | For equal-length, 4-aligned sources, the loop from the start writes Interleave of the sources, whatever the buffers held, and the offset ends at the combined length. |
| MeldSpec.InterleaveChunks | kern/syscall/file_syscalls.c:313-335 | In the interleaving, the chunk of source 1 at `i` sits at `2i` and the chunk of source 2 at `i` follows it, byte for byte. |
| MeldSpec.InterleaveCons | kern/syscall/file_syscalls.c:313-335 | A chunk of each in front of the sources comes out in front of their interleaving. |
| MeldSpec.MeldThreeChunks | kern/syscall/file_syscalls.c:286-341 | Three chunks per source come out alternating, and the offset ends at 24. |
| MeldSpec.MeldTestFiles | userland/testbin/meld/meld.c:49-50 | The meld test's "AAAABBBBCCCC" and "ddddeeeeffff" meld into "AAAAddddBBBBeeeeCCCCffff", and the destination offset, `*retval`, is 24. |
| MeldSpec.MeldRepeatsLastChunk | kern/syscall/file_syscalls.c:302-335 | When source 2 runs out a chunk early, its last chunk is written a second time. |
| MeldSpec.MeldRepeatsStaleChunk | kern/syscall/file_syscalls.c:326-335 | Melding "AAAABBBB" with "dddd" writes "AAAAddddBBBBdddd": 16 bytes, more than the 12 the sources hold. |

## Left out
- copyinstr and user pointers: a path arrives as `UserPath`, either the copied string or the error copyinstr reported. PATH_MAX is not modelled. The user buffer `buf` that read and write hand to `uio_kinit` is a byte sequence (`SysRead`'s `bytes`, `SysWrite`'s `data`), so a bad user buffer, and the EFAULT the copy would give, has no outcome in the model.
- kmalloc and kfree: the path buffers and the leaks on early returns are not modelled. The two meld buffers are arrays whose first contents are the parameters `junk1` and `junk2`.
- Concurrency: threads, waiting and the table lock are not modelled. The offset lock is a `locked` flag. Acquiring a held lock is the result `Hangs`, since in a single thread it is never released.
- File system internals: path resolution, permissions (`mode`), O_TRUNC, O_APPEND and O_NOCTTY are not modelled. A vnode's transfer failures are its constant `fault`, which stands for any device error.
- FileSyscalls.MeldChunks: because a vnode's fault is constant, a faulty file fails its first transfer. A meld can therefore fail only in its first pass, and a failure after some bytes reached the destination (a partly written destination) is not modelled.
- FileSyscalls.SysMeld: for the same reason, its fault path covers only a failure in the first pass, with the destination still empty. A fault in a later pass is not modelled.
- Vnodes.Vfs.Open: does not say that a newly created vnode has no fault, so a meld whose destination is created may still fail on writes.
- VOP_STAT: always succeeds, since the code ignores its result.
- FileSyscalls.MeldSources: the combined size and the offsets are unbounded integers. The C `int` size and `*retval` would overflow for sources of 2 GiB or more.
- FileSyscalls.SysRead: the return value is an unbounded integer, not the C `int` that `size - resid` is truncated to.
- Error codes are a datatype without kern/errno.h's numbers, which are not part of this model.
- FileTables.FileTable.Place: promises some free slot, not the lowest one, since the table's implementation is not part of this model.
- Destroying an open file when its reference count reaches 0 (vfs_close in openfile_decref) is not modelled. openfile.c and filetable.c are not part of this model.
- userland/testbin/meld/meld.c: its I/O, printf and err calls are not modelled. Only its file contents and the expected output are used.
