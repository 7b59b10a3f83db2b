/** Open-file objects: a vnode, an access mode, a seek offset guarded by a
    lock, and a reference count shared by every descriptor slot that holds it. */
module OpenFiles {
  import opened Types
  import opened Vnodes

  class OpenFile {
    /** of_vnode */
    const vnode: Vnode
    /** of_accmode: O_RDONLY, O_WRONLY or O_RDWR, fixed at open time */
    const accmode: Flags
    /** of_offset */
    var offset: nat
    /** of_refcount */
    var refcount: nat
    /** whether of_offsetlock is held */
    var locked: bool

    constructor (vnode: Vnode, accmode: Flags)
      ensures this.vnode == vnode && this.accmode == accmode
      ensures offset == 0 && refcount == 1 && !locked
    {
      this.vnode := vnode;
      this.accmode := accmode;
      offset := 0;
      refcount := 1;
      locked := false;
    }

    /** lock_acquire on of_offsetlock. Callers check `locked` first: a held
        lock is never released in this single-threaded model, so acquiring it
        would not return. */
    method Lock()
      requires !locked
      modifies this`locked
      ensures locked
    {
      locked := true;
    }

    /** lock_release on of_offsetlock. */
    method Unlock()
      modifies this`locked
      ensures !locked
    {
      locked := false;
    }

    /** openfile_decref: drop one reference. */
    method Decref()
      requires refcount > 0
      modifies this`refcount
      ensures refcount == old(refcount) - 1
    {
      refcount := refcount - 1;
    }
  }

  /** Why openfile_open fails on `path` under `flags`, if it does: an access
      mode other than read-only, write-only or read-write, then whatever the
      name lookup reports. With a valid access mode and no O_CREAT the open
      fails exactly on a missing name; with O_CREAT and O_EXCL exactly on an
      existing one; with O_CREAT alone never. */
  function OpenError(names: map<string, Vnode>, path: string, flags: Flags): (e: Option<Errno>)
    ensures e.Some? ==> e.value == EINVAL || e.value == ENOENT || e.value == EEXIST
    ensures e == Some(EINVAL) <==> AccessMode(flags) == O_ACCMODE
    ensures AccessMode(flags) != O_ACCMODE && flags & O_CREAT == 0 ==>
              (e.Some? <==> path !in names) && (e.Some? ==> e.value == ENOENT)
    ensures AccessMode(flags) != O_ACCMODE && flags & O_CREAT != 0 && flags & O_EXCL != 0 ==>
              (e.Some? <==> path in names) && (e.Some? ==> e.value == EEXIST)
    ensures AccessMode(flags) != O_ACCMODE && flags & O_CREAT != 0 && flags & O_EXCL == 0 ==> e.None?
  {
    if AccessMode(flags) == O_ACCMODE then Some(EINVAL) else LookupError(names, path, flags)
  }

  /** openfile_open: resolve `path` and wrap its vnode in a fresh open file
      with one reference at offset 0. The permission `mode` only matters to
      the file system's creation of the file. */
  method OpenfileOpen(vfs: Vfs, path: string, flags: Flags, mode: int) returns (res: Result<OpenFile>)
    modifies vfs
    ensures OpenError(old(vfs.names), path, flags).Some? ==>
              res == Err(OpenError(old(vfs.names), path, flags).value) && vfs.names == old(vfs.names)
    ensures OpenError(old(vfs.names), path, flags).None? ==>
              res.Ok? && fresh(res.value) && path in vfs.names &&
              res.value.vnode == vfs.names[path] &&
              res.value.accmode == AccessMode(flags) &&
              res.value.offset == 0 && res.value.refcount == 1 && !res.value.locked
    ensures OpenError(old(vfs.names), path, flags).None? && path in old(vfs.names) ==>
              vfs.names == old(vfs.names) && res.value.vnode == old(vfs.names)[path]
    ensures OpenError(old(vfs.names), path, flags).None? && path !in old(vfs.names) ==>
              fresh(res.value.vnode) && res.value.vnode.data == [] &&
              vfs.names == old(vfs.names)[path := res.value.vnode]
  {
    var accmode := AccessMode(flags);
    if accmode == O_ACCMODE {
      return Err(EINVAL);
    }
    assert OpenError(vfs.names, path, flags) == LookupError(vfs.names, path, flags);
    var v := vfs.Open(path, flags);
    if v.Err? {
      return Err(v.error);
    }
    var file := new OpenFile(v.value, accmode);
    res := Ok(file);
  }
}
