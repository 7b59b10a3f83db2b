/** Values shared by the file system calls: error codes, results, bytes and
    the open flags of kern/fcntl.h. */
module Types {

  /** The kern/errno.h codes that the file system calls and their helpers return. */
  datatype Errno =
    | EINVAL        // malformed open flags
    | EFAULT        // bad user pointer
    | ENAMETOOLONG  // path longer than PATH_MAX
    | ENOENT        // no such file, or nothing open in a slot
    | EEXIST        // exclusive create of an existing file
    | EMFILE        // descriptor table full
    | EACCES        // access mode forbids the transfer
    | EBADF         // descriptor out of range or not open
    | EIO           // device error

  datatype Option<+T> = None | Some(value: T)

  /** The result of a helper that either produces a value or fails with a code. */
  datatype Result<+T> = Ok(value: T) | Err(error: Errno)

  /** What a system call hands back to the trap handler: 0 with `*retval` set,
      or an error code. It hands back nothing at all when the call blocks
      forever on an offset lock that an earlier call left held, or when a
      KASSERT fails and the kernel panics. */
  datatype SysResult = Success(retval: int) | Failure(errno: Errno) | Hangs | Panics

  newtype byte = b: int | 0 <= b < 256

  /** A user-space path as copyinstr delivers it: the copied string, or the
      error copyinstr reported (EFAULT, ENAMETOOLONG). */
  datatype UserPath = Path(name: string) | Unreadable(err: Errno)

  /** Open flags, as the C `int flags` bit pattern. */
  type Flags = bv32

  const O_RDONLY: Flags := 0
  const O_WRONLY: Flags := 1
  const O_RDWR: Flags := 2
  const O_ACCMODE: Flags := 3
  const O_CREAT: Flags := 4
  const O_EXCL: Flags := 8
  const O_TRUNC: Flags := 16
  const O_APPEND: Flags := 32
  const O_NOCTTY: Flags := 64

  /** The one flag value sys_open rejects with EINVAL. */
  const ALL_FLAGS: Flags := O_ACCMODE | O_CREAT | O_EXCL | O_TRUNC | O_APPEND | O_NOCTTY

  /** The access-mode bits of a flag word. */
  function AccessMode(flags: Flags): (m: Flags)
    ensures m <= O_ACCMODE
  {
    flags & O_ACCMODE
  }

  /** The first of three transfer errors, in the order the transfers happen. */
  function FirstFault(a: Option<Errno>, b: Option<Errno>, c: Option<Errno>): (e: Option<Errno>)
    ensures e.None? <==> a.None? && b.None? && c.None?
    ensures a.Some? ==> e == a
    ensures a.None? && b.Some? ==> e == b
    ensures a.None? && b.None? ==> e == c
  {
    if a.Some? then a else if b.Some? then b else c
  }
}
