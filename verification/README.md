# A verified model of the kernel's hard parts

This project models five parts of a small RISC-V kernel and its libc in Dafny 4.11 and proves what they are for:

- **Storage allocator** (`Malloc.dfy`): `free`, `morecore`, `malloc` and the kernel call `do_sbrk` they grow through. Memory is a map
  from unit numbers (16 bytes) to headers; the circular free list is a ghost sequence; an owner map says which block each unit is in.
- **Files** (`Bitmap.dfy`, `BlockTree.dfy`, `FileSystem.dfy`, `BufferCache.dfy`): the inode's direct and one- to three-level indirect
  tree over a block bitmap, the teardown of `free_inode`, byte-wise reading and writing, and the sector cache.
- **Paging** (`Sv39.dfy`, `UserFrames.dfy`, `Pager.dfy`): the three-level table of section 4.4 of the RISC-V Privileged Architecture
  (version 20211203) with the kernel's own bit arithmetic on 64-bit words, the frame bitmap, page-node lists, the clock and the swap area.
- **Scheduler and synchronisation** (`Sched.dfy`, `Syscalls.dfy`, `Effects.dfy`, `Runs.dfy`, `Exclusion.dfy`, `Scenarios.dfy`,
  `Kernel.dfy`): process states and queues, mutexes, conditions, barriers, mailboxes, waiting, sleeping, exit and kill. `Syscalls` gives
  every operation as one atomic step between two calls of the scheduler, which the whole-kernel lock taken on trap entry
  (arch/riscv/kernel/entry.S:227) justifies; `Effects` says of every step what it does to each queue, process and object; `Runs` proves
  what holds in every run, `Exclusion` exactly which steps break mutual exclusion, and `Scenarios` gives runs from boot in which the code
  fails; `Kernel` is the imperative code on linked lists, each method equal to its step.
- **Image builder and loader** (`Bytes.dfy`, `Image.dfy`): the layout written by the builder and its undoing by the loader.

`Rings.dfy` holds the circular doubly linked list all of them share. A pointer field is an entry of a link map, NULL a missing entry.
`dafny verify dfyconfig.toml` checks everything.

Objects the source mutates are classes whose methods carry `modifies`. Where an invariant relates many globals they are one record field
(`Pager.Pager.k`, `Kernel.Machine.s` and `x`) instead of many fields; the order of the updates is the source's.

## Where the code differs from its intent

- The unit count of `malloc` and the rounding of `do_sbrk` wrap in 64 bits. `Malloc.RequestSoundExactly` proves exactly which requests are
  served soundly, and `Malloc.HugeRequestUnsound` shows one that is not, at any break.
- `bread` and `bwrite` never advance their memory address. `BufferCache.BwriteIntendedIff` proves that a write does what its callers mean
  exactly when all source sectors are equal, `BufferCache.BreadIntendedIff` that a read does exactly when the first sector equals the last
  and the destination already held the others; `BwriteTwoFails` and `BreadTwoFails` are two-sector inputs on which they do not. The cache
  theorems hold for the code as written. The tree and file layers use a store of whole blocks with the intended meaning, as they also do
  for the first read of `do_read` (one sector) and the last write of `do_write` (eight).
- The cache's victim is described as least recently used; since hits are not relinked it is the buffer filled longest ago
  (`BufferCache.BCache.FindFreeBuf`), and `BufferCache.NotLru` is a run that gives up the sector asked for last.
- `free_inode` frees exactly the inode's blocks if and only if every block in use starts within the file's size
  (`FileSystem.NothingLeaksIff`). Writing keeps that so unless it writes nothing at a block boundary at or past the end of the file
  (`FileSystem.WithinAfterWrite`), since `do_write` fetches a block before it looks at the length; `FileSystem.EmptyWriteLeaks` loses a block
  that way.
- `alloc_inode_block` ignores that `find_free_block` found nothing and reports success, storing -1 as the pointer, in the inode or in a pointer
  block. `FileSystem.Fs.AllocInodeBlock` proves for every id that a valid tree is left if and only if as many blocks are free as are missing on
  the way, and which place gets the -1 otherwise; `FileSystem.FullDiskRuins` is a full disk on which a file's first block is ruined.
  `FileSystem.Need` counts exactly the blocks a write takes, so a caller can tell beforehand.
- Locks belong to a pid, and every exit frees all locks of its pid (threads end by `sys_exit`). So a thread's exit frees the lock its sibling
  still holds, and another process can take it: `Scenarios.SiblingExitRobs` is such a run from boot, with two living holders of different pids.
  `do_kill` of one's own pid stops at the caller and does the same to the threads behind it, and `do_mutex_lock_release` does not ask who
  calls it. `Exclusion.ExclusionKeptExactly` proves that a step keeps mutual exclusion if and only if it does none of these to a lock
  somebody else has taken.
- The image's length in sectors is stored in 16 bits and read back as a signed `short`. Swapping starts right behind the image exactly when
  that is shorter than 2^15 sectors (`Image.SwapBehindImage`); at 2^16 it starts at the boot sector (`Image.BigImageWraps`).
- `do_mbox_close` can free a mailbox with processes asleep in it, and the next `do_mbox_open` resets the queue heads. That is sound exactly
  when nobody sleeps there (`Runs.ReopenSoundExactly`; `Scenarios.ReopenLosesSleeper` is a run from boot that loses one). The same holds for
  `do_barrier_init` and `do_condition_init` (`Runs.ReinitSoundExactly`, `Scenarios.ReinitLosesSleeper`), which their `destroy` calls
  normally ensure.
- A killed process that waits at a barrier stays counted: `Runs.BarrierCounts` states the counter equals the number of sleepers exactly
  when no waiter was killed in the present round. In `Scenarios.KilledWaiterEndsRound` a round of two ends with one process alive.
- A page given to a process is not cleared. `Pager.Pager.AllocPageHelper` states what it shows: with every frame taken, exactly the contents of
  the page evicted for it, whoever's that is, and otherwise what the lowest free frame was left with. In `Pager.NextOwnerReads` a process
  writes a page and exits, and the next process reads it.
- The loader's page count is a 32-bit sum. `Image.PagesCover` proves exactly when the pages hold the sectors read; in `Image.NoPageAtAll` it
  wraps to none.

## Model

| member | source | states |
|---|---|---|
| Malloc.RequestSoundExactly | tiny_libc/malloc.c:71 | a request is served soundly, header count and growth, if and only if break plus rounded growth stays below 2^64 |
| Malloc.SbrkExactly | kernel/mm/mm.c:478-487 | a growth moves the break past all units asked for, or is refused, if and only if nothing wraps |
| Malloc.HugeRequestUnsound | tiny_libc/malloc.c:71 | at any break, asking for 2^64 - 1 bytes yields one unit, with no payload |
| Malloc.TilesExactly | tiny_libc/malloc.c:26-92 | under the invariant every unit obtained lies in exactly one free or live block |
| Malloc.BlocksApart | tiny_libc/malloc.c:26-92 | two blocks never overlap |
| Malloc.FreeKeepsInv | tiny_libc/malloc.c:26-46 | freeing at the right slot keeps one ascending ring with a single wrap, the tiling, and no two touching free blocks |
| Malloc.FreeFrame | tiny_libc/malloc.c:35-44 | freeing writes nothing inside any other live block |
| Malloc.SearchStopsAtSlot | tiny_libc/malloc.c:32-34 | the search condition of `free` holds at a ring member if and only if it is the block's slot |
| Malloc.TakeEffect | tiny_libc/malloc.c:76-87 | handing out a whole block or its tail keeps the invariant, adds exactly one live block and touches no other |
| Malloc.GrowEffect | tiny_libc/malloc.c:54-62 | the new units form one new live block beside all others |
| Malloc.Heap.constructor | tiny_libc/malloc.c:23-24 | the state before the first call |
| Malloc.Heap.FindSlot | tiny_libc/malloc.c:32-34 | from any reachable `freep` the search ends, at the slot |
| Malloc.Heap.LinkIn | tiny_libc/malloc.c:35-44 | the two-sided merge in place |
| Malloc.Heap.Free | tiny_libc/malloc.c:26-46 | keeps the invariant, removes exactly the block from the live ones, leaves all others untouched, and the freed units are at or right after `freep` |
| Malloc.Heap.Morecore | tiny_libc/malloc.c:48-63 | null if and only if the growth would reach the stack, and then nothing changed; otherwise a block large enough is at or right after `freep`, the memory in blocks has grown by exactly the units asked for, and the break by that rounded up to pages |
| Malloc.Heap.Extend | tiny_libc/malloc.c:56-60 | the units asked for become one block at the old break; what lies behind it up to the new break is in no block |
| Malloc.SbrkGrants | kernel/mm/mm.c:478-487 | where nothing wraps a growth is granted if and only if it ends below the stack, and then it is the units asked for and less than a page more, which is lost |
| Malloc.Heap.Lap | tiny_libc/malloc.c:76-90 | one turn round the ring ends and finds a fitting block if and only if there is one, the first behind `freep` |
| Malloc.Heap.Take | tiny_libc/malloc.c:77-87 | exact fit or tail split: a new live block of exactly the size, the last units of a free one |
| Malloc.Heap.Init | tiny_libc/malloc.c:72-75 | the first call makes `base` the only member |
| Malloc.Heap.Malloc | tiny_libc/malloc.c:65-92 | null if and only if no free block fits and the growth would reach the stack, and then nothing changed; otherwise a new live block with room for the bytes and less than a unit more; at most one call of `morecore`, none if a block fits |
| Rings.Unlink | include/os/mm.h:122-127 | joining the neighbours of a member leaves the ring without it |
| Rings.InsertTail | kernel/sched/sched.c:93-106 | the four pointer writes put a node at the tail |
| Rings.InsertHead | kernel/fs/fs.c:102-105 | the four pointer writes put a node at the front |
| Rings.Rotate | include/os/mm.h:134-148 | the six pointer writes of `forward_list_head` rotate the ring by one |
| Bitmap.BitAfterSet | kernel/mm/mm.c:48-50 | setting changes that bit and no other |
| Bitmap.BitAfterClear | kernel/mm/mm.c:52-54 | clearing changes that bit and no other |
| Bitmap.FindFree | kernel/mm/mm.c:28-46 | the lowest clear bit below the limit, or -1 exactly if there is none |
| BlockTree.PathOfId | kernel/fs/fs.c:453-509 | the index arithmetic of all four ranges splits a block id exactly, so different ids have different places |
| BlockTree.TwoDigits | kernel/fs/fs.c:493-507 | the quotient and remainder forms used on the third level agree |
| BlockTree.WordAfterSet | kernel/fs/fs.c:1061-1064 | storing one pointer word in a block changes no other word |
| BlockTree.GraftAt | kernel/fs/fs.c:1048-1132 | hanging a block at an empty place changes the pointer at that place only |
| BlockTree.GraftTree | kernel/fs/fs.c:1048-1132 | and keeps all data and pointer blocks pairwise distinct |
| BlockTree.CoversExactly | kernel/fs/fs.c:330-440 | a place covers a file block if and only if it lies on the way to it |
| FileSystem.MappedOthers | kernel/fs/fs.c:1048-1132 | mapping one file block gives it a fresh zero block and changes neither the lookup nor the data of any other |
| FileSystem.BlockSectors | kernel/fs/fs.c:297 | the data blocks fill the data area, eight sectors each, and end within the file system |
| FileSystem.ReleaseOne | kernel/fs/fs.c:308-320 | freeing the block of a place clears a bit that was set, and advances the teardown by exactly that place |
| FileSystem.StillHeld | kernel/fs/fs.c:345-417 | a place the teardown is not done with still owns its block, so a pointer block is read only while it is allocated |
| FileSystem.NothingLeaksIff | kernel/fs/fs.c:322-450 | the teardown frees exactly the inode's blocks if and only if every place in use starts within the file |
| FileSystem.WithinAfterWrite | kernel/fs/fs.c:1133-1178 | a write leaves every place in use within the file, if and only if it wrote something, started before the end or not at a block boundary |
| FileSystem.EmptyWriteLeaks | kernel/fs/fs.c:1133-1178 | on an empty disk, writing nothing to a new file and removing it leaves one block taken |
| FileSystem.NeedStep | kernel/fs/fs.c:1048-1132 | mapping the first block of a range takes exactly the difference in empty places on the ways to the range |
| FileSystem.MissingIs | kernel/fs/fs.c:1048-1132 | the blocks one allocation takes are the empty places from the inode pointer down |
| FileSystem.GrewWithin | kernel/fs/fs.c:1133-1178 | allocation below a bound keeps every place in use below it |
| FileSystem.WriteBytes | kernel/fs/fs.c:1133-1178 | after a write: the written range holds the bytes, every other mapped byte is unchanged, the rest of new blocks is zero |
| FileSystem.Fs.constructor | kernel/fs/fs.c:514-590 | an empty file on a formatted disk |
| FileSystem.Fs.FindFreeBlock | kernel/fs/fs.c:282-306 | the block was the lowest free one, is marked and zeroed, and `rdata_buffer` is zeroed; failure exactly if none is free |
| FileSystem.Fs.BlockId2Sector | kernel/fs/fs.c:452-511 | the pointer at the id's place, 0 if unmapped, -1 beyond the last id |
| FileSystem.RootSpoils | kernel/fs/fs.c:1049-1053 | an inode pointer of -1 is no tree any more; all pointers set before stay |
| FileSystem.EntrySpoils | kernel/fs/fs.c:1060-1064 | the same for an entry of a pointer block |
| FileSystem.BuiltFresh | kernel/fs/fs.c:1048-1132 | one more place filled on the way down: as many blocks taken as places were missing, nothing else changed |
| FileSystem.BuiltRuins | kernel/fs/fs.c:1048-1132 | with no block left the next missing place gets -1: the first one the free blocks do not reach |
| FileSystem.FullDiskRuins | kernel/fs/fs.c:1049-1053 | a valid full disk, and the ruined file allocating its first block leaves |
| FileSystem.Fs.AllocRoot | kernel/fs/fs.c:1049-1053 | fills an inode pointer with a fresh block, or on a full disk with -1, which is no block |
| FileSystem.Fs.AllocEntry | kernel/fs/fs.c:1060-1064 | fills an entry of a pointer block, re-read after `rdata_buffer` was cleared; on a full disk with -1 |
| FileSystem.Fs.RootBlock | kernel/fs/fs.c:1056-1059 | the inode's pointer block, allocated if it is missing; -1 and a ruined tree exactly if it is missing and none is free |
| FileSystem.Fs.Descend | kernel/fs/fs.c:1075-1084 | follows an entry, allocating it if it is empty; -1 and a ruined tree exactly if the free blocks do not reach it |
| FileSystem.Fs.AllocData | kernel/fs/fs.c:1085-1091 | the data block at the end of the way, with the outcome of the whole call |
| FileSystem.Fs.AllocInodeBlock | kernel/fs/fs.c:1048-1132 | in all four ranges: a valid tree if and only if as many blocks are free as are missing; then the id has a fresh zeroed block, exactly the missing blocks are taken and everything mapped stays; otherwise the first place out of reach holds -1 although success is reported |
| FileSystem.Fs.FreeBlock | kernel/fs/fs.c:308-320 | of the data blocks exactly this one becomes free, and one more is free than before unless it was free already |
| FileSystem.Fs.FreeAt | kernel/fs/fs.c:331-438 | frees a place exactly when the loop is at the first file block below it |
| FileSystem.Fs.FreeSingle | kernel/fs/fs.c:337-356 | one turn of the loop in the single indirect range, with its skip |
| FileSystem.Fs.FreeDouble | kernel/fs/fs.c:357-389 | one turn in the double indirect range |
| FileSystem.Fs.FreeTriple | kernel/fs/fs.c:391-438 | one turn in the triple indirect range |
| FileSystem.Fs.FreeInode | kernel/fs/fs.c:322-450 | the loop ends having freed every place that starts within the file, once, and nothing else |
| FileSystem.Fs.DoWrite | kernel/fs/fs.c:1133-1178 | given the blocks the touched part lacks, exactly those are taken; the bytes land at the position over any number of blocks, all other bytes of the file, all other sectors and all other bits stay; size becomes the larger of old size and end |
| FileSystem.Fs.DoRead | kernel/fs/fs.c:1012-1045 | returns the file's bytes from the read position on and changes nothing but the position |
| FileSystem.Fs.RoundTrip | kernel/fs/fs.c:1012-1178 | seek, write, seek back and read returns the bytes written, whenever the blocks the range lacks are free |
| BufferCache.EvictKeeps | kernel/fs/fs.c:64-76 | writing back and dropping a buffer leaves what users see unchanged |
| BufferCache.RefillKeeps | kernel/fs/fs.c:92-107 | filling a buffer from the card leaves it unchanged and cached ids unique |
| BufferCache.PutKeeps | kernel/fs/fs.c:115-120 | storing into a buffer changes exactly that sector, under either policy |
| BufferCache.FlushKeeps | kernel/fs/fs.c:137-140 | writing a dirty buffer back changes nothing users see |
| BufferCache.AllCleanIsDisk | kernel/fs/fs.c:134-143 | with no dirty buffer the card holds what users see |
| BufferCache.BwriteIntendedIff | kernel/fs/fs.c:109-122 | the loop stores what callers mean if and only if all source sectors are equal |
| BufferCache.BwriteTwoFails | kernel/fs/fs.c:109-122 | two different sectors are both stored as the first |
| BufferCache.BreadIntendedIff | kernel/fs/fs.c:124-132 | the loop loads what callers mean if and only if the first sector equals the last and the destination held the others before |
| BufferCache.BreadTwoFails | kernel/fs/fs.c:124-132 | of two different sectors the second lands on the first |
| BufferCache.NotLru | kernel/fs/fs.c:62-76 | with every buffer filled in turn, the sector asked for right before a miss is given up, one not asked for since it was filled stays |
| BufferCache.BCache.constructor | kernel/fs/fs.c:31-36 | an empty cache shows the card |
| BufferCache.BCache.SearchBuf | kernel/fs/fs.c:81-90 | finds the buffer of a sector if and only if it is cached |
| BufferCache.BCache.FindFreeBuf | kernel/fs/fs.c:55-79 | the lowest unused buffer; only if there is none, the one filled longest ago of those in use, whose sector is then cached no more; users see no change |
| BufferCache.BCache.Evict | kernel/fs/fs.c:64-76 | unlinks the last buffer, written back if dirty |
| BufferCache.BCache.Refill | kernel/fs/fs.c:92-107 | caches the sector in front of the queue without changing what users see |
| BufferCache.BCache.Fetch | kernel/fs/fs.c:111-114 | the buffer of the sector, filled if needed; a hit leaves the queue as it is |
| BufferCache.BCache.Bwrite | kernel/fs/fs.c:109-122 | what users see changes exactly as the loop is written; under write-through the card holds it afterwards, under write-back the card is untouched by hits |
| BufferCache.BCache.Bread | kernel/fs/fs.c:124-132 | only the first sector of the destination changes, to the last sector of the range; users see no change |
| BufferCache.BCache.Bflush | kernel/fs/fs.c:134-143 | afterwards the card equals what users see, which is unchanged |
| BufferCache.BCache.SetPolicy | kernel/fs/fs.c:38-53 | switching the policy shows nothing |
| Sv39.PfnRoundTrip | arch/riscv/include/pgtable.h:91-113 | `get_pfn` inverts `set_pfn` below 2^44, and the attribute bits stay |
| Sv39.AttrKeepsPfn | arch/riscv/include/pgtable.h:115-130 | attribute writes keep the frame number |
| Sv39.VpnSlices | kernel/mm/mm.c:88-91 | the shift-and-xor split is exactly the three 9-bit slices |
| Sv39.VpnInjective | kernel/mm/mm.c:168-184 | a user page is determined by its three indices |
| Sv39.ClearPgdir | arch/riscv/include/pgtable.h:132-139 | zeroes the 512 entries of one table and no other |
| Sv39.SharePgtable | kernel/mm/mm.c:150-154 | copies all 512 entries and changes no other table |
| Sv39.LeafInjective | kernel/mm/mm.c:168-184 | different pages of any processes have different leaf entries |
| Sv39.LeafEntry | kernel/mm/mm.c:111-114 | writing one page's leaf entry changes the translation of that page and of no other address of any process |
| Sv39.HangKeeps | kernel/mm/mm.c:92-107 | a new table fills its place, moves no other and keeps all tables distinct |
| Sv39.HangTranslate | kernel/mm/mm.c:92-107 | and changes no translation |
| Sv39.RootKeeps | kernel/sched/sched.c:299-303 | a new root directory leaves all other tables alone |
| Sv39.DropKeeps | kernel/sched/sched.c:342-356 | dropping a root drops that process's tables only |
| UserFrames.PfnInjective | kernel/mm/mm.c:71-80 | different user frames have different frame numbers |
| UserFrames.PfnIs | kernel/mm/mm.c:79-111 | user frame f has number 0x54000 + f |
| Pager.CardRoundTrip | kernel/mm/mm.c:234-238 | a page written to the card reads back |
| Pager.ExpelEffect | kernel/mm/mm.c:224-239 | moving the first page of the memory list to the card keeps the invariant and every page's contents |
| Pager.AdmitEffect | kernel/mm/mm.c:242-256 | bringing a page in keeps the invariant and every page's contents |
| Pager.CreateEffect | kernel/mm/mm.c:185-201 | a new page takes a frame no other page has and changes no other page |
| Pager.FullMeansListed | kernel/mm/mm.c:71-80 | with every bit set the memory list is not empty |
| Pager.TranslateSees | kernel/mm/mm.c:85-118 | whatever frame the hardware reaches is the page's own, holding what the page holds |
| Pager.TranslationIs | kernel/mm/mm.c:168-184 | every address of every process translates to its page's frame if that is in memory, and to nothing otherwise |
| Pager.OthersTranslate | kernel/mm/mm.c:85-118 | after a page arrives every other address translates as before, except the evicted page, which translates to nothing |
| Pager.ExitEffect | kernel/mm/mm.c:120-147 | exactly the pid's pages, frames and bits are gone, all else as it was |
| Pager.DeleteListNode | include/os/mm.h:122-127 | removes the node from its list and leaves the other list alone |
| Pager.InsertListTail | include/os/mm.h:128-133 | appends the node |
| Pager.Pager.constructor | kernel/mm/mm.c:12-26 | no page, no frame taken, swap space from the given sector on |
| Pager.Pager.ForwardListHead | include/os/mm.h:134-148 | a rotation of the memory list, none for a single node |
| Pager.Pager.Clock | kernel/mm/mm.c:221-224 | ends; stops at the first unmarked node in ring order, or at the original first one if all were marked |
| Pager.Pager.Expel | kernel/mm/mm.c:225-239 | the page goes to fresh sectors behind all live ones, its frame is handed over |
| Pager.Pager.SwapPageOut | kernel/mm/mm.c:218-240 | evicts the clock's victim; no page's contents change |
| Pager.Pager.AllocUserPage | kernel/mm/mm.c:71-80 | a frame no page has, the lowest free one; evicts only when every frame is taken, and then the list `swap_page_out` asserts to be non-empty is so |
| Pager.Pager.SwapPageIn | kernel/mm/mm.c:242-256 | the page is in memory, no page's contents change, at most one other page moved; it is usable by the process and marked for the clock |
| Pager.Pager.SearchListNode | include/os/mm.h:160-169 | finds the page's node if and only if the page is on that list |
| Pager.Pager.EnsureTable | kernel/mm/mm.c:92-107 | one level of the walk, hanging a cleared table where the entry is zero |
| Pager.Pager.MapNew | kernel/mm/mm.c:108-117 | the page translates to the frame returned, the lowest free one or the evicted page's, and shows what that held; it is usable by the process and marked for the clock; every other page keeps its contents |
| Pager.Pager.AllocPageHelper | kernel/mm/mm.c:85-118 | the walk of the address yields the frame returned; at most one other page was evicted; all other contents stay; with every frame taken the new page shows exactly the evicted page's contents |
| Pager.NextOwnerReads | kernel/mm/mm.c:85-147 | a run: process 1 writes a page and exits, process 2 touches a page for the first time and reads what process 1 wrote |
| Pager.Pager.HandlePageFault | kernel/mm/mm.c:258-286 | afterwards the page is in memory; no page that existed changed |
| Pager.Pager.UserStore | kernel/mm/mm.c:258-286 | with faults and evictions on the way, user memory behaves as a plain map from pages to contents, and the page stored to is marked for the clock |
| Pager.Pager.NewRoot | kernel/sched/sched.c:299-303 | a new process has an empty user half and changes no page |
| Pager.Pager.RecycleNodeFromList | kernel/mm/mm.c:120-142 | every node of the pid leaves the list, nobody else's |
| Pager.Pager.DropListed | kernel/mm/mm.c:125-139 | one node, its bit and its place in the list |
| Pager.Pager.ReleaseProcessPage | kernel/mm/mm.c:143-147 | the bits set afterwards are exactly those of other processes' frames; other pages keep place and contents |
| Pager.Pager.GetFreePageNode | include/os/mm.h:150-158 | the first inactive node, or -1 if there is none |
| Sched.WakeInv | kernel/sched/sched.c:108-121 | moving waiters to the ready queue keeps every process on exactly the queue its status says |
| Sched.DueSplits | kernel/sched/time.c:35-48 | exactly the sleepers whose time has come are picked, the others stay in order |
| Sched.ResetSoundExactly | kernel/locking/lock.c:121-122 | pointing a queue head at itself is sound if and only if the queue is empty |
| Sched.DispatchInv | kernel/sched/sched.c:57-80 | after `do_scheduler` every hart is idle or runs a RUNNING process of its own |
| Sched.DispatchAllowed | kernel/sched/sched.c:47-52 | whatever is dispatched has the hart in its mask |
| Sched.DispatchBypass | kernel/sched/sched.c:37-56 | a ready eligible process runs at once if none is ahead, else one fewer is ahead |
| Sched.DispatchOther | kernel/sched/sched.c:37-56 | the other hart never lets anybody past |
| Syscalls.UnlockedGood | kernel/locking/lock.c:78-86 | freeing a lock and waking its waiters keeps every part of the invariant |
| Syscalls.ReleasedGood | kernel/locking/lock.c:87-98 | afterwards no lock is owned by the pid, and no other lock changed |
| Syscalls.KilledGood | kernel/sched/sched.c:324-338 | a kill leaves no waiter, no orphaned lock and no stale queue entry |
| Syscalls.NoWaiters | kernel/sched/sched.c:342-356 | an EXITED process has no waiters |
| Syscalls.PutGood | kernel/locking/lock.c:249-259 | a send keeps the stream and leaves no receiver asleep who could go on |
| Syscalls.GetGood | kernel/locking/lock.c:269-281 | a receive keeps the stream and leaves no sender asleep who could go on |
| Syscalls.BarFullGood | kernel/locking/lock.c:126-133 | the last arrival completes the round |
| Syscalls.BarJoinGood | kernel/locking/lock.c:134-137 | any other arrival is counted and queued |
| Syscalls.ExitSane | kernel/sched/sched.c:342-356 | exit keeps the whole invariant |
| Syscalls.KillSane | kernel/sched/sched.c:315-341 | so does kill of any number of threads, ending in exit if it comes to the caller |
| Syscalls.StepSane | kernel/sched/sched.c:37-488 | every one of the 26 kinds of step keeps the whole invariant |
| Effects.DispatchEffect | kernel/sched/sched.c:37-80 | the scheduler readies exactly the due sleepers, in order, puts a still running process last, and runs the first in line whose mask has the hart; nothing else changes |
| Effects.SleepersWake | kernel/sched/time.c:35-48 | after any call of the scheduler a due sleeper is ready or running and off the queue, any other still sleeps, in the old order |
| Effects.TickEffect | kernel/sched/sched.c:57-80 | a timer interrupt is one such call |
| Effects.AcquireEffect | kernel/locking/lock.c:63-76 | a free lock becomes the caller's; otherwise it sleeps at the tail of the lock's queue |
| Effects.ReleaseEffect | kernel/locking/lock.c:78-86 | the lock is free and all its waiters are ready, in order |
| Effects.CondWaitEffect | kernel/locking/lock.c:172-177 | the caller sleeps on the condition, then the mutex is free and its waiters ready, then the hart switches |
| Effects.SignalEffect | kernel/locking/lock.c:178-182 | the first waiter is ready at the tail of the ready queue and the others stay; without one nothing changes |
| Effects.BroadcastEffect | kernel/locking/lock.c:183-191 | the condition's queue is empty and all waiters are behind the ready queue, in order |
| Effects.BarrierWaitEffect | kernel/locking/lock.c:126-139 | the last arrival goes on and readies all sleepers; any other is counted and sleeps there |
| Effects.BarrierDestroyEffect | kernel/locking/lock.c:140-145 | everybody who sleeps at the barrier is ready |
| Effects.SendEffect | kernel/locking/lock.c:246-265 | with room exactly the message goes behind the buffer and all receivers are ready; without, the sender sleeps; on the first turn and on later ones |
| Effects.RecvEffect | kernel/locking/lock.c:266-287 | with enough data exactly the oldest bytes leave the buffer and all senders are ready; without, the receiver sleeps |
| Effects.BoxFrame | kernel/locking/lock.c:206-287 | every other step leaves the mailbox's bytes alone |
| Effects.SleepEffect | kernel/sched/sched.c:81-91 | the wake time is the one asked for and the caller joins the sleepers |
| Effects.WaitpidEffect | kernel/sched/sched.c:357-370 | the caller sleeps on the queue of the lowest living entry with the pid, and goes on if there is none |
| Effects.JoinEffect | kernel/sched/sched.c:481-487 | the same for a thread of the caller's process |
| Effects.StartEffect | kernel/sched/sched.c:213-312 | the lowest free entry becomes a ready process with the next pid and its parent's mask, or a thread with its parent's pid; with none free nothing changes |
| Effects.TasksetEffect | kernel/sched/sched.c:375-403 | sets the mask of the lowest living entry with the pid and nothing else |
| Effects.LockInitEffect | kernel/locking/lock.c:44-62 | a known key changes nothing, a new one gets the next lock |
| Effects.BarrierInitEffect | kernel/locking/lock.c:108-125 | the lowest unused barrier is set up |
| Effects.CondInitEffect | kernel/locking/lock.c:156-171 | the lowest unused condition is set up |
| Effects.OpenEffect | kernel/locking/lock.c:206-238 | a known name gains a user, a new one gets the lowest unused mailbox, empty |
| Effects.CloseEffect | kernel/locking/lock.c:239-245 | one user less, and unused after the last |
| Effects.ExitEffect | kernel/sched/sched.c:342-356 | waiters are ready, the locks of the pid free and their waiters ready, the caller EXITED, then the hart switches |
| Effects.KillEffect | kernel/sched/sched.c:315-341 | exactly the victims die, the locks of the pid are free, and nobody who waited for a victim or such a lock sleeps |
| Runs.BootSane | init/main.c:109-121 | the state at boot satisfies it |
| Runs.RunSane | kernel/sched/sched.c:37-488 | so every state of every run does |
| Runs.PlaceByStatus | kernel/sched/sched.c:93-145 | READY exactly on the ready queue, BLOCKED exactly on one wait queue, RUNNING or EXITED on none; EXITED has no waiters |
| Runs.OneHartEach | kernel/sched/sched.c:48-52 | two harts never run the same process |
| Runs.LockedIsAlive | kernel/locking/lock.c:63-98 | a LOCKED lock has a living owner, and only then does anybody wait: no exit or kill orphans a lock |
| Exclusion.MutualExclusion | kernel/locking/lock.c:63-98 | where exclusion holds, a lock is LOCKED exactly while somebody is between acquire and release; at most one thread of any process is; it is alive and of the owner's pid |
| Exclusion.ExclusionKeptExactly | kernel/sched/sched.c:315-356 | a step keeps exclusion if and only if it frees no lock under a taker that lives on: by a sibling's exit, by killing one's own pid, or by a release of somebody else's lock |
| Exclusion.RunExclusive | kernel/sched/sched.c:315-356 | exclusion holds in every state of a run if and only if no step of it does that |
| Scenarios.SiblingExitRobs | tiny_libc/pthread.c:13 | a run from boot: a thread takes a lock, its sibling exits, another process takes the lock too; both holders live, with different pids |
| Runs.NoMissedWakeup | kernel/locking/lock.c:246-287 | sent is received followed by the buffer, at most 64 bytes; sleeping senders lack room, sleeping receivers lack data |
| Runs.BarrierCounts | kernel/locking/lock.c:108-145 | arrivals are goal times rounds plus counter, counter below goal; counter is the number of sleepers exactly if no waiter of the round was killed |
| Scenarios.KilledWaiterEndsRound | kernel/locking/lock.c:126-139 | a run from boot in which a round of two ends with a single process alive |
| Runs.StepLoyal | kernel/sched/sched.c:37-488 | in every step whoever leaves a queue dies, is due, or is excused by what it waited for |
| Runs.Departure | kernel/sched/sched.c:93-121 | the same for one process and queue: target exited, lock free, condition signalled, round complete or barrier gone, bytes taken from or put into the mailbox, time come |
| Runs.WaiterLeaves | kernel/sched/sched.c:357-370 | a waitpid or join waiter leaves only when its target has exited or it is itself killed |
| Runs.NoLostSignal | kernel/locking/lock.c:172-177 | when the mutex is free the waiter is already on the condition's queue |
| Runs.AcquireEnds | kernel/locking/lock.c:63-76 | an acquire turn ends with the caller having taken the lock or asleep on it |
| Runs.ContFrame | kernel/sched/sched.c:57-80 | a step changes what its own hart's process goes on with inside the kernel, and that of no other living one |
| Runs.ReturnsHolding | kernel/locking/lock.c:63-76 | a process in an acquire loop stays in it through every step until it is killed or has taken the lock |
| Runs.WaitReturnsHolding | kernel/locking/lock.c:172-177 | over every run after `do_condition_wait`, the caller is still inside, is dead, or returned having taken the mutex |
| Runs.StepNearer | kernel/sched/sched.c:37-145 | no step but a kill or a change of masks lets anybody past a ready process |
| Runs.BoundedBypass | kernel/sched/sched.c:37-56 | with n eligible processes ahead, a ready process runs within n + 1 switches of the hart, in every run without kills and mask changes |
| Runs.ReopenSoundExactly | kernel/locking/lock.c:206-238 | opening a new mailbox is sound if and only if nobody sleeps on the entry it takes |
| Runs.ReinitSoundExactly | kernel/locking/lock.c:108-171 | the same for barriers and conditions |
| Runs.CloseKeepsSleepers | kernel/locking/lock.c:239-245 | closing frees the entry and wakes nobody |
| Scenarios.ReopenLosesSleeper | kernel/locking/lock.c:206-245 | a run from boot after which the running process's open of a mailbox loses a sleeper for ever |
| Scenarios.ReinitLosesSleeper | kernel/locking/lock.c:108-145 | the same for setting up a barrier |
| Kernel.LinkTail | kernel/sched/sched.c:93-102 | the pointer writes of `do_block` and `add_readyqueue` append the process to the queue |
| Kernel.UnlinkNode | kernel/sched/sched.c:404-416 | the pointer writes of the three unlinking functions remove it, from whatever position |
| Kernel.Machine.constructor | kernel/locking/lock.c:11-20 | the linked state at boot |
| Kernel.Machine.DoBlock | kernel/sched/sched.c:93-106 | the process is at the tail of the queue and BLOCKED |
| Kernel.Machine.AddReadyqueue | kernel/sched/sched.c:127-136 | at the tail of the ready queue and READY |
| Kernel.Machine.DoUnblock | kernel/sched/sched.c:108-121 | from its queue to the tail of the ready queue |
| Kernel.Machine.WakeQueue | kernel/locking/lock.c:83-85 | the draining loop ends with the whole queue, in order, behind the ready queue |
| Kernel.Machine.CheckSleeping | kernel/sched/time.c:35-48 | the loop that unlinks as it goes wakes exactly the due sleepers, in order |
| Kernel.Machine.ScanReady | kernel/sched/sched.c:42-54 | finds the first ready process that may run on the hart |
| Kernel.Machine.GetNextRunning | kernel/sched/sched.c:37-56 | the current process yields to the tail, the first eligible one runs |
| Kernel.Machine.TakeReady | kernel/sched/sched.c:47-52 | the chosen process leaves the queue and runs on the hart |
| Kernel.Machine.DoScheduler | kernel/sched/sched.c:57-80 | equals the dispatch step, idle included |
| Kernel.Machine.DoMutexLockAcquire | kernel/locking/lock.c:63-76 | one turn of the loop equals the acquire step |
| Kernel.Machine.FreeLock | kernel/locking/lock.c:79-85 | the lock is free and all its waiters are ready, in order |
| Kernel.Machine.DoMutexLockRelease | kernel/locking/lock.c:78-86 | equals the release step, whoever calls it |
| Kernel.Machine.ReleaseProcessMutex | kernel/locking/lock.c:87-98 | equals releasing every lock of the pid |
| Kernel.Machine.DoConditionWait | kernel/locking/lock.c:172-177 | equals the wait step: queue, release, switch |
| Kernel.Machine.DoConditionSignal | kernel/locking/lock.c:178-182 | wakes the first waiter, if any |
| Kernel.Machine.DoConditionBroadcast | kernel/locking/lock.c:183-187 | wakes all |
| Kernel.Machine.DoBarrierWait | kernel/locking/lock.c:126-139 | equals the barrier step |
| Kernel.Machine.DoBarrierDestroy | kernel/locking/lock.c:140-145 | wakes all and frees the entry |
| Kernel.Machine.DoMboxSend | kernel/locking/lock.c:246-265 | one turn of the loop equals the send step |
| Kernel.Machine.DoMboxRecv | kernel/locking/lock.c:266-287 | one turn of the loop equals the receive step and returns the oldest bytes |
| Kernel.Machine.DoSleep | kernel/sched/sched.c:81-91 | equals the sleep step until that much later than now |
| Kernel.Machine.PidToPcbId | kernel/sched/sched.c:185-193 | the first live process with the pid, -1 if none |
| Kernel.Machine.DoWaitpid | kernel/sched/sched.c:357-370 | equals the wait step, nothing if no live process has the pid |
| Kernel.Machine.Unburden | kernel/sched/sched.c:343-348 | waiters woken, locks released |
| Kernel.Machine.DoExit | kernel/sched/sched.c:342-356 | equals the exit step |
| Kernel.Machine.RemovePcbQueue | kernel/sched/sched.c:404-416 | takes the process off whatever queue it is on |
| Kernel.Machine.KillOther | kernel/sched/sched.c:324-338 | equals killing one process |
| Kernel.Machine.DoKill | kernel/sched/sched.c:315-341 | the search loop ends having killed every live process of the pid up to the caller, and exits if it comes to it |
| Kernel.Machine.GetFreePcb | kernel/sched/sched.c:194-202 | the first free entry, -1 if none |
| Kernel.Machine.DoExec | kernel/sched/sched.c:284-314 | a free entry becomes a ready process with the next pid, which is returned; -1 if and only if none is free |
| Bytes.Memcpy | libs/string.c:3-8 | copying down is right even where the ranges overlap |
| Bytes.MailBuffer.Append | kernel/locking/lock.c:250-253 | the message goes behind the valid bytes |
| Bytes.MailBuffer.TakeFront | kernel/locking/lock.c:270-275 | the oldest bytes are handed out and the rest moves to the front |
| Bytes.DecodeEncode | tools/createimage.c:258-284 | a little-endian field reads back |
| Image.ReservedAt | tools/createimage.c:156-160 | the zero bytes reserved for the task information lie right behind the kernel, before the first task |
| Image.LateWrites | tools/createimage.c:258-284 | the late writes change only the header fields of the boot sector and the reserved bytes |
| Image.SegmentAt | tools/createimage.c:230-244 | each loadable segment's own bytes stand right behind those of the segments before it, and nothing else does |
| Image.KernelAt | tools/createimage.c:125-160 | the kernel's segments follow the boot sector in the finished image |
| Image.ImageBytesIs | tools/createimage.c:135-143 | the byte count is the image's length, but for what further loadable segments of boot block and kernel add |
| Image.BootFields | tools/createimage.c:268-279 | the header holds the number of tasks, an open lock for the second hart, and the least number of sectors that hold kernel and records |
| Image.MemSizeOf | tools/createimage.c:125-160 | the memory size is at least any loadable segment's, and an only one's exactly |
| Image.TaskAt | tools/createimage.c:163-169 | every task's bytes are in the finished image where its record says, and the sector count is the least that covers them |
| Image.InfoInImage | tools/createimage.c:258-266 | the record the kernel reads for a task is the one the builder computed |
| Image.InfoRoundTrip | tools/createimage.c:25-32 | the 88-byte record reads back field by field |
| Image.RecordLayout | include/os/task.h:16-23 | where in the 88 bytes each field is |
| Image.PagesCover | kernel/loader/loader.c:19 | the pages allocated hold every sector read, offset included, if and only if the 32-bit sum does not wrap or what is left of it suffices |
| Image.NoPageAtAll | kernel/loader/loader.c:19 | a memory size for which the count wraps to no page |
| Image.SwapBehindImage | kernel/mm/mm.c:14 | the start of the swap area the kernel reads from the header is the image's length in sectors, and so behind all of it, if and only if that is below 2^15 |
| Image.BigImageWraps | kernel/mm/mm.c:14 | an image of 65536 sectors, for which it is 0 |
| Image.RecordFound | arch/riscv/kernel/head.S:27-47 | on a card holding the image, the offset in the header leads to every task's record, with the file's name, entry point and memory size |
| Image.WriteSegment | tools/createimage.c:230-244 | appends the segment's file bytes |
| Image.WritePadding | tools/createimage.c:246-256 | zero bytes up to the given length |
| Image.WriteFile | tools/createimage.c:125-160 | the image, counters and memory size after one file |
| Image.LayFiles | tools/createimage.c:110-181 | the loop lays the files out and fills the records |
| Image.WriteFields | tools/createimage.c:268-283 | the five header fields, written one by one |
| Image.CreateImage | tools/createimage.c:93-185 | the finished image and the task records |
| Image.ReadTask | kernel/loader/loader.c:23-36 | the page loop reads exactly the task's sectors, contiguously |
| Image.LoadTaskImg | kernel/loader/loader.c:17-47 | memory from the entry point on holds the card's bytes from the task's first byte on |
| Image.LoadBuilt | kernel/loader/loader.c:17-47 | loading by the record read from the card puts exactly the bytes of the task's loadable segments at its entry point, each segment behind the ones before it, for every sequence of input files |

## Left out

- The directory layer, path parsing, links and file descriptors' permission checks; the inode bitmap and the access times.
- The network driver and stack, interrupts, screen, console, system call dispatch and shell.
- Assembly: context switches, boot, TLB and cache flushes. A switch is an atomic change of the current process.
- Shared-memory pages, `mprotect`, `brk` checks and `ioremap`; a page fault is modelled past its permission checks.
- The kernel's own page list and bitmap: kernel pages for page tables are parameters that must be fresh.
- Spin locks and semaphores, which are empty in the source.
- Disjointness of file system, swap area and image on the card beyond `Image.SwapBehindImage`: each is a card of its own.
- FileSystem.Fs.AllocInodeBlock: where a pointer block is missing and none is free, the model stops at the pointer set to -1; what the source then does to sector -1 is left out.
- FileSystem.Fs.DoWrite: requires as many free blocks as the write takes, since without them the tree is ruined on the way (`AllocInodeBlock`); positions stay below the largest file.
- FileSystem.Fs.DoRead: an unmapped block reads from sector 0, as in the source, and positions are not checked against the size.
- FileSystem.Fs.RoundTrip: positions are 32-bit, so the end must stay below 2^32.
- FileSystem.Fs.FreeBlock: requires the first sector of a data block; the source asserts only that it does not lie before the data area.
- Malloc.Heap.Malloc: requires that break plus growth does not wrap in 64 bits; `RequestSoundExactly` proves that condition exact.
- Malloc.Heap.Malloc: one thread per heap. The break is a field of the thread (kernel/sched/sched.c:432), so threads sharing a heap can be given the same addresses; a break per thread is not modelled.
- Malloc.Heap.Free: requires a pointer `malloc` returned and that is still live.
- Pager.Pager.AllocPageHelper: requires a free page node, since the source writes out of bounds when the table is full, and user addresses below 2^38.
- Pager.Pager.ReleaseProcessPage: drops all pages of the pid. `do_exit` calls it when thread 0 exits (kernel/sched/sched.c:350), whether or not siblings still run on those pages; pages and threads are not modelled together.
- Kernel.Machine.DoKill: requires that no process of the pid runs on the other hart.
- Kernel.Machine.DoMutexLockAcquire: requires an initialised lock, as `do_condition_wait` does of its mutex; a lock index at or above `last_lockid` would not be released on exit.
- Kernel.Machine.CheckSleeping: reads the clock once, where the source reads it for every sleeper.
- Kernel.Machine.DoMboxRecv: message lengths are not negative.
- Thread creation, joining, masks, and the initialisation and opening of locks, barriers, conditions and mailboxes are steps of `Syscalls` only, not methods of `Kernel.Machine`; the mailbox bytes are a sequence there and an array in `Bytes.MailBuffer`.
- Image.LoadTaskImg: the pages from the entry point on are one array, and residency during the copy is the pager's matter; fewer than 2^23 sectors, as their size in bytes is a 32-bit product.
- Image.LoadBuilt: the boot loader's copy of kernel and records into memory is left out, the records are read from the card; the kernel is smaller than 2^31 bytes, every number fits its field, and a task's memory size is at most 2^32 - 1024.
- Image.CreateImage: at most sixteen tasks, as the record array holds; sizes are unbounded integers.
