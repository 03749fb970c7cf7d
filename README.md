# Demand-pager bookkeeping, modelled in Dafny

This project models `src/pager.c`, the bookkeeping half of a user-level
demand-paging manager. All of its state lives in one global `struct pager`:

- a fixed frame table of `nframes` entries;
- a disk-block counter (`nblocks`, `free_blocks`);
- a growable process table (`procs`, `nprocs`, `max_procs`). Each process
  record holds a growable array of page slots (`pages`, `npages`, `maxpages`).

Three entry points do real work:

- `pager_init` sets up the frame table with every frame unowned and clean.
- `pager_create` appends a process record with four unset page slots.
- `pager_extend` finds a process by pid with a linear scan. It then appends
  one page backed by the next block of the counter, so blocks are handed out
  as 0, 1, 2, … and never reused.

`pager_fault`, `pager_syslog` and `pager_destroy` are stubs.

The project has two modules:

- `PagerSpec` (`pager_spec.dfy`) holds the state as a value (`PagerState`).
  It has one function per entry point (`InitState`, `Created`, `Extended`) and
  the invariant `Inv`. Lemmas prove that every entry point, and so every
  sequence of calls (`Run`), keeps that invariant. They also prove that the
  blocks handed out are exactly 0, 1, 2, … in call order.
- `Pager` (`pager.dfy`) holds the class `Pager`. Its fields are those of
  `struct pager`: the frame table is an `array`, the process table a `seq`
  that the methods reassign. Each method is proved against the matching
  `PagerSpec` function and keeps `Inv`.

The invariant `Inv` says:

- `0 <= free_blocks <= nblocks` and `nprocs <= max_procs`.
- Every frame is still unowned and clean. Nothing in the file ever assigns a
  frame.
- Every process has `0 <= npages <= maxpages` and at least 4 slots.
- Every page in use is on disk, has no frame, and holds a block in
  `[0, nblocks - free_blocks)`. Within a process, later pages hold higher
  blocks.
- No two pages in use, in one process or in two, share a block.
- The pages in use number exactly `nblocks - free_blocks`.

Where the design description and the code disagree, the model follows the
code:

- `pager_extend` returns NULL on every path. It does not return an address.
- `pager_create` does not reject a pid that is already registered. `pager_extend`
  then uses the first record with that pid.
- Blocks come from a counter rather than from a search for the lowest free
  block. Nothing ever frees a block, so the two agree on every reachable
  state.
- Fault handling, eviction, the memory dump and process teardown are empty
  stubs.

## Model

| member | source | states |
|---|---|---|
| `PagerSpec.InitState` | src/pager.c:41-60 | after `pager_init(nframes, nblocks)` there are `nframes` frames, each with pid -1, page -1, prot 0 and dirty 0; `free_blocks == nblocks`; the process table is empty with capacity 0 |
| `PagerSpec.InitEstablishesInv` | src/pager.c:41-60 | the state `pager_init` leaves satisfies the pager invariant |
| `Pager.Pager.Init` | src/pager.c:41-60 | the constructor fills a fresh frame array in a loop and leaves exactly `InitState(nframes, nblocks)`, with the invariant holding |
| `Pager.NewPageSlots` | src/pager.c:76-82 | the slot-initialising loop yields `n` slots, each with block -1, on_disk 0 and frame -1 |
| `PagerSpec.NewProc` | src/pager.c:70-82 | a new record has the given pid, `npages == 0`, `maxpages == 4`, and four slots each set to block -1, on_disk 0, frame -1 |
| `PagerSpec.Created` | src/pager.c:62-83 | `pager_create` appends exactly one record (`NewProc(pid)`) and leaves earlier records unchanged. Capacity stays put unless `nprocs == max_procs`; then it becomes 4 if it was 0 and doubles otherwise, so `nprocs <= max_procs` is kept. Frames and block counters are unchanged |
| `Pager.Pager.Create` | src/pager.c:62-83 | the method's new state is `Created(old state, pid)`; the frame array is the same and the invariant holds |
| `PagerSpec.AppendEmptyKeepsBacked` | src/pager.c:70-73 | appending a record with no pages in use keeps the process-table invariant: block distinctness, range and page count |
| `PagerSpec.CreateKeepsInv` | src/pager.c:62-83 | `pager_create` preserves the whole pager invariant |
| `PagerSpec.Find` | src/pager.c:87-94 | the scan returns the index of the FIRST record whose pid matches (no earlier record matches), or none when no record matches |
| `Pager.Pager.FindProc` | src/pager.c:87-94 | the search loop returns exactly what `Find` specifies |
| `PagerSpec.AppendPage` | src/pager.c:100-108 | the page array doubles only when full (`npages == maxpages`), so `npages <= maxpages` still holds. `npages` grows by one; the pages already in use are unchanged; the new page has the given block, on_disk 1 and frame -1 |
| `PagerSpec.Extended` | src/pager.c:85-112 | unknown pid: state unchanged. `free_blocks == 0`: state unchanged, including `free_blocks` and the process's pages. Otherwise only the first matching record changes: it gets one page with block `nblocks - old free_blocks`, on_disk 1, frame -1, and `free_blocks` drops by one. Every other record, the frames, `nblocks` and the table capacity stay as they were |
| `Pager.Pager.Extend` | src/pager.c:85-112 | the method's new state is `Extended(old state, pid)`; the invariant holds; the result is always NULL |
| `PagerSpec.ExtendKeepsInv` | src/pager.c:96-108 | `pager_extend` preserves the invariant: the new block is fresh, in range and above every block of the same process, and the pages in use still number `nblocks - free_blocks` |
| `PagerSpec.Step` | src/pager.c:62-125 | any single entry point keeps the invariant and lowers `free_blocks` by exactly the number of blocks it hands out |
| `PagerSpec.Run` | src/pager.c:62-125 | any sequence of entry-point calls keeps the invariant; `nblocks` never changes and `free_blocks` never grows |
| `PagerSpec.HandedConsecutive` | src/pager.c:96-106 | over any sequence of calls, the k-th block handed out is `nblocks - free_blocks + k` (free count at the start), and as many blocks are handed out as `free_blocks` dropped |
| `PagerSpec.AllocationFromInit` | src/pager.c:41-108 | after `pager_init` and any sequence of calls, the blocks are handed out as 0, 1, 2, … in order, their number is `nblocks - free_blocks`, and the invariant holds at the end |
| `PagerSpec.BlocksInRangeAndDistinct` | src/pager.c:105-106 | in any state satisfying the invariant, two distinct pages in use have distinct blocks, both in `[0, nblocks)` |
| `Pager.Pager.Fault` | src/pager.c:114-116 | `pager_fault` changes no state |
| `Pager.Pager.Syslog` | src/pager.c:118-121 | `pager_syslog` always returns -1 |
| `Pager.Pager.Destroy` | src/pager.c:123-125 | `pager_destroy` changes no state |

## Left out

- Allocation failure of `malloc`/`realloc` is not modelled. The C never checks it, and the model's sequences always grow.
- Pointer aliasing after `realloc` is not modelled. The process table and each page array are sequences that the methods reassign.
- The process table's slots beyond `nprocs` are not modelled. `realloc` leaves them uninitialised and nothing reads them; the table is the sequence of live records plus the capacity `max_procs`.
- PagerSpec.AppendPage: `realloc` growth leaves the new slots of a page array uninitialised. The model fills them with the unset slot (block -1, on_disk 0, frame -1). Nothing in the source reads a slot at or beyond `npages`, and no invariant or lemma says anything about such slots.
- Fixed-width integers are not modelled. C `int` could overflow when `maxpages * 2` or `max_procs * 2` passes 2^31 - 1; the model's integers are unbounded.
- `pid_t` is modelled as `int`, and `void *` addresses and `size_t` lengths as integers. The code never computes an address; `pager_extend` returns NULL.
- Pager.Pager.Init: requires `nframes` and `nblocks` to be non-negative. A negative `nframes` makes the C `malloc` size meaningless, and the design of the pager asks for positive counts.
- Clock eviction, fault-driven loading, protection upgrades, process teardown and the memory dump are not modelled. The source has no code for them: `pager_fault`, `pager_syslog` and `pager_destroy` are stubs.
- The field `prot` of a frame is modelled only at its initial value 0. Nothing else in the file reads or writes it.
- Rejection of a duplicate pid is not modelled. `pager_create` does not check for it.
- The backing-store, mapping and zero-fill primitives are not modelled. The file never calls them.
