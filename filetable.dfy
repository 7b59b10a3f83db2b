/** The per-process descriptor table: a fixed number of slots, each empty or
    holding an open file. */
module FileTables {
  import opened Types
  import opened OpenFiles

  /** How many slots of `s` hold `x` (with `x == null`: how many are free). */
  function Occurrences(s: seq<OpenFile?>, x: OpenFile?): (n: nat)
    ensures n <= |s|
  {
    if s == [] then 0 else (if s[0] == x then 1 else 0) + Occurrences(s[1..], x)
  }

  /** A value occurs somewhere exactly when its count is positive. */
  lemma {:induction false} OccurrencesPositive(s: seq<OpenFile?>, x: OpenFile?)
    ensures Occurrences(s, x) > 0 <==> x in s
  {
    if s != [] {
      OccurrencesPositive(s[1..], x);
      assert s == [s[0]] + s[1..];
    }
  }

  /** Storing `y` in slot `i` removes one occurrence of what was there and
      adds one of `y`; every other value keeps its count. */
  lemma {:induction false} OccurrencesUpdate(s: seq<OpenFile?>, i: nat, y: OpenFile?, x: OpenFile?)
    requires i < |s|
    ensures Occurrences(s[i := y], x) ==
            Occurrences(s, x) - (if s[i] == x then 1 else 0) + (if y == x then 1 else 0)
  {
    if i == 0 {
      assert s[i := y][1..] == s[1..];
    } else {
      OccurrencesUpdate(s[1..], i - 1, y, x);
      assert s[i := y][1..] == s[1..][i - 1 := y];
    }
  }

  /** `t` differs from `s` at most in slots that were free in `s`. */
  ghost predicate FillsFree(s: seq<OpenFile?>, t: seq<OpenFile?>)
  {
    |t| == |s| && forall i :: 0 <= i < |s| && s[i] != null ==> t[i] == s[i]
  }

  /** The reference-count invariant: every object in the table holds at
      least one reference per slot that points at it. */
  ghost predicate CountsCovered(s: seq<OpenFile?>)
    reads set i | 0 <= i < |s| && s[i] != null :: s[i]
  {
    forall i :: 0 <= i < |s| && s[i] != null ==> s[i].refcount >= Occurrences(s, s[i])
  }

  class FileTable {
    const slots: array<OpenFile?>

    constructor (capacity: nat)
      ensures fresh(slots) && slots.Length == capacity
      ensures forall i :: 0 <= i < capacity ==> slots[i] == null
    {
      slots := new OpenFile?[capacity](_ => null);
    }

    /** The open files the table refers to. */
    ghost function Files(): set<OpenFile>
      reads this, slots
    {
      set i | 0 <= i < slots.Length && slots[i] != null :: slots[i]
    }

    /** The open file in slot `fd`, as a frame. */
    ghost function FileAt(fd: int): set<OpenFile>
      reads this, slots
    {
      if 0 <= fd < slots.Length && slots[fd] != null then {slots[fd]} else {}
    }

    /** The vnode behind slot `fd`, as a frame. */
    ghost function VnodeAt(fd: int): set<Vnodes.Vnode>
      reads this, slots
    {
      if 0 <= fd < slots.Length && slots[fd] != null then {slots[fd].vnode} else {}
    }

    ghost predicate Valid()
      reads this, slots, Files()
    {
      CountsCovered(slots[..])
    }

    /** filetable_okfd: whether `fd` names a slot of the table. */
    predicate OkFd(fd: int): (ok: bool)
      reads this
      ensures ok ==> 0 <= fd
      ensures ok <==> 0 <= fd < slots.Length
    {
      0 <= fd < slots.Length
    }

    /** Whether `fd` is in range and its slot holds an open file. */
    predicate IsOpen(fd: int)
      reads this, slots
    {
      OkFd(fd) && slots[fd] != null
    }

    /** filetable_get: the open file in slot `fd`, or EBADF when `fd` is out
        of range or the slot is empty. */
    method Get(fd: int) returns (res: Result<OpenFile>)
      ensures res.Ok? <==> OkFd(fd) && slots[fd] != null
      ensures res.Ok? ==> res.value == slots[fd]
      ensures res.Err? ==> res.error == EBADF
    {
      if !OkFd(fd) || slots[fd] == null {
        return Err(EBADF);
      }
      res := Ok(slots[fd]);
    }

    /** filetable_put: ends the use of slot `fd` begun by Get. The table
        keeps no record of such uses, so nothing changes. */
    method Put(fd: int, file: OpenFile)
      ensures slots[..] == old(slots[..])
    {
    }

    /** filetable_place: store `file` in some free slot and return its
        number, or fail with EMFILE when no slot is free. */
    method Place(file: OpenFile) returns (res: Result<nat>)
      modifies slots
      ensures res.Ok? <==> null in old(slots[..])
      ensures res.Ok? ==> res.value < slots.Length && old(slots[res.value]) == null &&
                          slots[..] == old(slots[..])[res.value := file]
      ensures res.Ok? ==> Occurrences(slots[..], null) == Occurrences(old(slots[..]), null) - 1
      ensures res.Err? ==> res.error == EMFILE && slots[..] == old(slots[..])
    {
      var i := 0;
      while i < slots.Length
        invariant 0 <= i <= slots.Length
        invariant forall j :: 0 <= j < i ==> slots[j] != null
        invariant slots[..] == old(slots[..])
      {
        if slots[i] == null {
          slots[i] := file;
          OccurrencesUpdate(old(slots[..]), i, file, null);
          return Ok(i);
        }
        i := i + 1;
      }
      res := Err(EMFILE);
    }

    /** filetable_placeat: store `file` (possibly null) in slot `fd` and
        return what was there. */
    method PlaceAt(file: OpenFile?, fd: int) returns (prev: OpenFile?)
      requires OkFd(fd)
      modifies slots
      ensures prev == old(slots[fd])
      ensures slots[..] == old(slots[..])[fd := file]
    {
      prev := slots[fd];
      slots[fd] := file;
    }
  }

  /** Placing a fresh object, holding its one reference, in a free slot keeps
      the reference-count invariant. */
  lemma PlaceKeepsCounts(s: seq<OpenFile?>, i: nat, f: OpenFile)
    requires i < |s| && s[i] == null && f !in s && f.refcount >= 1
    requires CountsCovered(s)
    ensures CountsCovered(s[i := f])
  {
    var t := s[i := f];
    OccurrencesPositive(s, f);
    forall j | 0 <= j < |t| && t[j] != null
      ensures t[j].refcount >= Occurrences(t, t[j])
    {
      OccurrencesUpdate(s, i, f, t[j]);
    }
  }

  /** Emptying slot `i` while its object gives up one reference keeps the
      invariant; the counts are those of the state after the decrement. */
  lemma ReleaseKeepsCounts(s: seq<OpenFile?>, i: nat)
    requires i < |s| && s[i] != null
    requires s[i].refcount + 1 >= Occurrences(s, s[i])
    requires forall j :: 0 <= j < |s| && s[j] != null && s[j] != s[i] ==>
               s[j].refcount >= Occurrences(s, s[j])
    ensures CountsCovered(s[i := null])
  {
    var t := s[i := null];
    forall j | 0 <= j < |t| && t[j] != null
      ensures t[j].refcount >= Occurrences(t, t[j])
    {
      OccurrencesUpdate(s, i, null, t[j]);
    }
  }
}
