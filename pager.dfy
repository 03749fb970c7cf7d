/**
 The pager's global state as an object whose entry points update it in place,
 as `src/pager.c` does with its global `struct pager`. Each method is proved
 against the matching function of PagerSpec and keeps PagerSpec.Inv.
 */
module Pager {
  import opened PagerSpec

  /** The C value NULL, which every `void *` result of the pager is. */
  const Null := 0

  /** The loop of `pager_create` that initialises a new process's page slots. */
  method NewPageSlots(n: nat) returns (slots: seq<PageData>)
    ensures |slots| == n
    ensures forall k :: 0 <= k < n ==> slots[k] == UnsetPage
  {
    slots := [];
    var i := 0;
    while i < n
      invariant 0 <= i <= n
      invariant |slots| == i
      invariant forall k :: 0 <= k < i ==> slots[k] == UnsetPage
    {
      slots := slots + [UnsetPage];
      i := i + 1;
    }
  }

  class Pager {
    /** The frame table: a fixed buffer of `nframes` entries. */
    var frames: array<FrameData>
    var nframes: int
    var nblocks: int
    var freeBlocks: int
    /** The live process records; the table's capacity is `maxProcs`. */
    var procs: seq<Proc>
    var maxProcs: int

    /** The pager's state as a value. */
    ghost function State(): PagerState
      reads this, frames
    {
      PagerState(frames[..], nframes, nblocks, freeBlocks, procs, maxProcs)
    }

    ghost predicate Valid()
      reads this, frames
    {
      Inv(State())
    }

    /** `pager_init`: every frame unowned and clean, all blocks free, no process. */
    constructor Init(nframes: nat, nblocks: nat)
      ensures Valid() && fresh(frames)
      ensures State() == InitState(nframes, nblocks)
    {
      var fs := new FrameData[nframes];
      var i := 0;
      while i < nframes
        invariant 0 <= i <= nframes
        invariant forall f :: 0 <= f < i ==> fs[f] == FreeFrame
      {
        fs[i] := FrameData(-1, -1, 0, 0);
        i := i + 1;
      }
      frames := fs;
      this.nframes := nframes;
      this.nblocks := nblocks;
      freeBlocks := nblocks;
      procs := [];
      maxProcs := 0;
      new;
      InitEstablishesInv(nframes, nblocks);
    }

    /** `pager_create`: append a process record with four unset page slots. */
    method Create(pid: int)
      requires Valid()
      modifies this
      ensures Valid() && frames == old(frames)
      ensures State() == Created(old(State()), pid)
    {
      if |procs| == maxProcs {
        maxProcs := if maxProcs == 0 then InitialMaxProcs else maxProcs * 2;
      }
      var slots := NewPageSlots(InitialMaxPages);
      assert slots == seq(InitialMaxPages, _ => UnsetPage);
      procs := procs + [Proc(pid, 0, InitialMaxPages, slots)];
      CreateKeepsInv(old(State()), pid);
    }

    /** The search loop of `pager_extend`: the first record with the given pid, if any. */
    method FindProc(pid: int) returns (found: Option<nat>)
      ensures found == Find(procs, pid)
    {
      var i := 0;
      while i < |procs|
        invariant 0 <= i <= |procs|
        invariant forall j :: 0 <= j < i ==> procs[j].pid != pid
      {
        if procs[i].pid == pid {
          return Some(i);
        }
        i := i + 1;
      }
      return None;
    }

    /**
     `pager_extend`: give the first process with this pid one more page, backed
     by the next block of the counter. The result is always NULL.
     */
    method Extend(pid: int) returns (addr: int)
      requires Valid()
      modifies this
      ensures Valid() && frames == old(frames)
      ensures State() == Extended(old(State()), pid)
      ensures addr == Null
    {
      ghost var s0 := State();
      var found := FindProc(pid);
      if found.None? {
        return Null;
      }
      if freeBlocks == 0 {
        return Null;
      }
      var i := found.value;
      var p := procs[i];
      if p.npages == p.maxpages {
        p := p.(maxpages := p.maxpages * 2, pages := p.pages + seq(p.maxpages, _ => UnsetPage));
      }
      var block := nblocks - freeBlocks;
      freeBlocks := freeBlocks - 1;
      p := p.(pages := p.pages[p.npages := PageData(block, 1, -1)], npages := p.npages + 1);
      assert p == AppendPage(s0.procs[i], block);
      procs := procs[i := p];
      assert State() == Extended(s0, pid);
      ExtendKeepsInv(s0, pid);
      return Null;
    }

    /** `pager_fault`: a stub that changes nothing. */
    method Fault(pid: int, addr: int)
      ensures State() == old(State())
    {
    }

    /** `pager_syslog`: a stub that always reports failure. */
    method Syslog(pid: int, addr: int, len: nat) returns (r: int)
      ensures r == -1
    {
      return -1;
    }

    /** `pager_destroy`: a stub that changes nothing. */
    method Destroy(pid: int)
      ensures State() == old(State())
    {
    }
  }
}
