# A verified model of the xv6 kernel's stateful cores

This project models the parts of the Raspberry Pi port of xv6 whose correctness depends on
whole runs rather than on single functions, and proves what each of them is for:

| modules | models | main results |
|---|---|---|
| `CrashLog`, `LruRing`, `BlockStore` | the redo log over the buffer cache over the memory disk | every disk image ever written recovers to a state of an atomic store; every `bread` agrees with a flat sector map; a sole user's commit always finds a clean buffer |
| `FsLayout`, `Ownership`, `Files`, `FileStore` | mkfs images, bitmap and inode allocation, the block map, inode reads, writes and truncation, `filewrite` | every run of the file system from a blank image is a run of a plain map from inode numbers to files; every block in use has exactly one owner; `itrunc` never finds a block free; a chunk logs at most seven sectors |
| `Transactions` | `filewrite` carried through the log, the cache and the disk | no `log_write` of a chunk can panic; after a crash at any sector write the recovered disk is the file system after a whole number of chunks, exactly if there is room below the log; the same for creating and deleting a file |
| `Directories`, `Paths` | directory entries, path names, the inode cache | a directory is a map; `dirlink` adds one binding; `namex`, which locks and searches the directories on the disk, finds exactly what the chain of directories leads to, with a net reference change of one |
| `BuddyTiling`, `Buddy` | the page allocator | free and allocated blocks tile the heap; free blocks are a function of the free memory; `kmalloc` fails only when it must; which double frees are noticed |
| `Procs`, `Pipe`, `PipeRuns` | processes on any number of CPUs, `sleep` and `wakeup`, busy flags, pipes | in every interleaving: no lost wakeup, CPU and process agreement, safe reaping, one holder of a busy flag; FIFO order with wrapping counters; who sleeps on a pipe has reason to |
| `PageTables`, `Vm`, `Spaces` | two-level page tables and address spaces | each operation refines an update of a flat page map; copying and growing give everything back on failure; no two address spaces share a frame or a table |
| `Umalloc`, `ShellLines`, `Shell`, `Grep` | the K&R heap, the shell parser and the regular expression matcher of the user programs | a coalesced heap that conserves its units; the parser accepts exactly the lines that a grammar of its own describes, with the trees it gives them; matching decides the pattern's language |

`Blocks` and the modules of Basics.dfy hold sectors, words, division and pigeonhole facts.

Code that updates state in place is a class whose methods have the loops and branches of the
source; each method is proved against predicates on values, and the laws are lemmas about
those values. Ghost fields and ghost parameters (the ledger of block owners, the tiling, the
flat page map, the list of free blocks) say what the concrete state stands for. A panic of the
kernel is a result (`ok == false`, or `None` or `Panic`), and contracts say when it is reached.
Some invariants are written `forall k :: Look(k) ==> ...` (or with `Peek`, `Glance` or `Spot`); this keeps
them folded in proofs that only pass them along and means the same as their bodies.

Several promises turn out not to hold of the code as it stands. The model keeps the code, shows
an input for which each fails, and states when it holds:

* `Buddy.Kmem.Kfree`: a second `kfree` of a free region is noticed exactly if the region has not been merged into a larger free block (`Buddy.DoubleFreeCaught`); otherwise the free blocks overlap from then on (`Buddy.OverlapBreaks`). `Buddy.DoubleFreeMissed` is such a heap.
* `Buddy.PoolOverflowsOrderSix`: for the memory that `main` hands over, the order-6 marks alone exceed what a 16-bit link can index; the other orders fit. `Buddy.LinkIn`: linking in a mark is right exactly if its index is not 0xFFFF and, unless the list was empty, it and the head fit 16 bits. `Buddy.NilMarkLost` and `Buddy.FarMarkLost` say what is lost otherwise, and `Buddy.PoolReaches` that such blocks exist.
* `Transactions.BallocHome`: `balloc` returns a sector outside the log exactly if a block below the log is free, because mkfs does not mark the log as used. `Transactions.LogSectorTaken` is a file system in which it returns a log sector.
* `Transactions.FilewriteLogged`: a file write survives a crash at any point exactly if the blocks it needs are free below the log when it starts; `Transactions.HeaderOverwritten` says what happens to a block that it gets in the log.
* `FileStore.MkfsRoot`: mkfs leaves a root directory that lacks its last block exactly if the directory's entries end on a block boundary.
* `Vm.Memory.Growproc`: shrinking a process to size zero frees its pages and then reports failure with the old size (`Vm.Memory.GrowprocToZero`); in every other case the address space matches the size. Shrinking below zero wraps to a large size, changes nothing and reports success.
* `Umalloc.UnitsSuffice`: a request within seven bytes of 2^32 wraps and gets a block that is too small (`Umalloc.UnitsTooFew`); every smaller one fits.
* `Umalloc.GrantCovers`: from 2^28 units on the argument of `sbrk` is negative, and `morecore` records memory that `sbrk` did not give; below that it records what it was given. `Umalloc.HugeRequest` is such a request, and `Umalloc.Heap.Malloc` says when the heap lies within the process.
* `Directories.Dirlink`: an inode number is stored in 16 bits, so the name is bound to the inode exactly if 0 < inum < 65536. `Directories.LinkTruncates`: 65537 binds the name to inode 1, and 65536 leaves it unbound.

## Model

| member | source | states |
|---|---|---|
| CrashLog.HeadRoundTrip | source/log.c:89-126 | the header sector write_head fills is read back by read_head as the same list of sectors |
| CrashLog.InstalledIs | source/log.c:70-86 | copying the first k logged blocks home puts exactly those blocks in exactly those sectors and changes nothing else |
| CrashLog.RecoveredIs | source/log.c:128-134 | recovery of an image whose log promises given contents leaves exactly these in every home sector, and an empty log |
| CrashLog.InvStep | source/log.c:70-202 | every step of the log, crashes and reboots included, keeps it in agreement with one step of an atomic store |
| CrashLog.CrashAtomicity | source/log.c:70-202 | after any run stopped anywhere, completing recovery gives the committed transactions in full and nothing of the open one |
| CrashLog.EveryImageRecovers | source/log.c:70-202 | the disk after each single sector write of a run recovers to the atomic store's contents at that point |
| CrashLog.IdleIsCommitted | source/log.c:148-161 | whenever no transaction is open the home sectors themselves are the committed contents |
| CrashLog.RecoveryRestartable | source/log.c:128-134 | recovery cut off after any number of blocks and started again ends as if it had not been cut off |
| LruRing.MoveFirstIs | source/bio.c:123-142 | unlinking a buffer and linking it in at the head keeps both link directions a ring over the same buffers, with that one first |
| BlockStore.Store.constructor | source/bio.c:38-56 | binit leaves an empty, coherent cache on whatever image a crash left |
| BlockStore.InitLinks | source/bio.c:46-55 | binit's loop makes one ring of all buffers |
| BlockStore.Store.Iderw | source/memide.c:36-66 | one sector goes to the disk or comes from it, with the flags set as promised; the exact cases in which it panics |
| BlockStore.Store.Bget | source/bio.c:61-94 | the cached buffer, or the least recently used clean one; sleeps only on a busy buffer of the sector; panics only with no clean buffer |
| BlockStore.Store.Bread | source/bio.c:97-108 | the buffer holds the flat map's contents of the sector whatever was evicted before, and at most one buffer holds a sector |
| BlockStore.Store.Bwrite | source/bio.c:111-119 | one sector write, which is the flat map's update too, and the buffer is clean |
| BlockStore.Store.Brelse | source/bio.c:123-142 | the buffer is free and most recently used, and the others keep their order |
| BlockStore.FindSector | source/log.c:184-188 | the loop finds the sector's earlier log entry, or the end of the list |
| BlockStore.Store.LogWrite | source/log.c:171-202 | the block is appended to the log or replaces its earlier copy, the buffer is pinned, and this is one write of the atomic store; panics only on a full log, outside a transaction, or with no clean buffer |
| BlockStore.Store.WriteHead | source/log.c:109-126 | one write puts the in-memory list in the header sector |
| BlockStore.Store.InstallTrans | source/log.c:70-86 | each round is one install step of the log; all pinned sectors are clean at the end, and a sole user of the cache never runs out of buffers |
| BlockStore.Store.ReadHead | source/log.c:89-104 | the in-memory list is the header sector's |
| BlockStore.Store.Recover | source/log.c:128-134 | boot, installs and clear, never a panic, and the store is valid |
| BlockStore.Store.BeginTrans | source/log.c:136-146 | begins a transaction unless one is open, where it sleeps |
| BlockStore.Store.CommitHead | source/log.c:150-151 | the commit point is one header write |
| BlockStore.Store.CommitTrans | source/log.c:148-161 | every write it issues is a step of the log, and with at most nine logged sectors a sole user of the cache never panics |
| BlockStore.CleanBuffer | source/bio.c:82-93 | fewer pinned sectors than buffers leave a clean buffer |
| BlockStore.FlatIsSpec | source/log.c:171-202 | between operations the flat map, which every bread shows, is the atomic store with the open transaction's own writes |
| BlockStore.StoreCrashSafe | source/log.c:70-202 | every image the cache and log code has written recovers to a state of the atomic store on the way |
| FsLayout.PutBitIs | source/fs.c:62-66 | writing one bitmap bit changes that bit and no other block's |
| FsLayout.PutInodeIs | source/fs.c:206-223 | the stored inode is read back, and every other inode is as before |
| FsLayout.ImageBlank | uprogs/mkfs.c:94-105 | the image mkfs starts from is blank: exactly the sectors before the data area are marked, and every inode is free |
| FsLayout.ImageBits | uprogs/mkfs.c:237-249 | mkfs marks the first blocks and no others in the bitmap sector |
| Ownership.DataWrite | source/fs.c:491-526 | writing a data sector that is nobody's indirect block changes no block address and no owner |
| Ownership.Allocated | source/fs.c:50-78 | balloc's block had no owner and is now in use but in no slot |
| Ownership.FiledEntry | source/fs.c:394-400 | storing a fresh block in an empty indirect entry gives it exactly that owner |
| Ownership.Cleared | source/fs.c:81-99 | bfree finds an owned block's bit set, and clears no other |
| Ownership.OneSlot | source/fs.c:373-407 | no block is in two slots of any inodes |
| Ownership.DroppedPointer | source/fs.c:427-440 | resetting the indirect pointer after its blocks were freed removes exactly these from the ledger |
| Files.FileSys.constructor | uprogs/mkfs.c:94-105 | on a blank image no block has an owner and the ownership invariant holds |
| Files.FileSys.ScanBitmap | source/fs.c:62-65 | balloc's inner loop stops at the first clear bit of a bitmap sector |
| Files.FileSys.FindClear | source/fs.c:59-77 | both loops together find the lowest free block, or there is none |
| Files.FileSys.Balloc | source/fs.c:50-78 | the lowest free block, zeroed, with no address or data block of any file changed; panics exactly if no block is free |
| Files.FileSys.Bmap | source/fs.c:373-407 | the block of a file block, allocated with its indirect block if need be; no other block moves, each keeps one owner; panics only beyond MAXFILE or on a full disk |
| Files.FileSys.Iupdate | source/fs.c:206-223 | the dinode on disk equals the inode in memory, all else as before |
| Files.FileSys.Writei | source/fs.c:491-526 | on a dense file the bytes become prefix, source, suffix; every other inode's data is unchanged, the file is dense, and the dinode still equals the inode; exactly the empty slots the bytes reach are filled, with the lowest free blocks; the -1 cases change nothing; balloc panics exactly if these slots are more than the free blocks |
| Files.FileSys.WriteLoop | source/fs.c:512-518 | the loop's writes add up, and without growth the inode in memory is untouched |
| Files.FileSys.Readi | source/fs.c:458-487 | exactly the requested slice, cut at the end of the file; nothing changes |
| Files.FileSys.Bfree | source/fs.c:81-99 | an owned block is freed without a panic; on any other block it panics exactly if the bit is clear |
| Files.FileSys.Itrunc | source/fs.c:414-444 | returns exactly this inode's blocks, never finds one free already, and leaves an empty, synchronised inode and all others as before |
| Files.FileSys.FreeEntries | source/fs.c:431-435 | the loop frees exactly the blocks of the indirect entries |
| Files.FileSys.Chunk | source/file.c:157-181 | one transaction of filewrite: with one bitmap sector it logs at most seven sectors and holds at most one other buffer at each log_write; the recorded calls give the new disk from the old one |
| Files.FileSys.Filewrite | source/file.c:131-188 | the chunks together are one splice of the bytes written, whose number is known beforehand from the offset, the size and the file limit; the stages between the transactions have whole chunks in place; exactly the empty slots the bytes reach are filled, each with the lowest free block, and it panics exactly if these are more than the free blocks; -1 exactly if some byte did not go in |
| Files.WriteRoom | source/fs.c:50-78 | with the lowest free block taken for each empty slot, all slots are filled exactly if they are no more than the free blocks |
| Files.OthersKept | source/fs.c:491-526 | an inode none of whose slots changed is dense and has the same bytes |
| Files.FewSectors | source/file.c:147-153 | at most four data blocks, the bitmap, the indirect block and the inode |
| Files.SplicedTwice | source/file.c:156-182 | two adjoining writes are one longer write |
| FileStore.Ilock | source/fs.c:276-311 | locking another inode keeps ownership and every file; it panics exactly on an inode that is not in use |
| FileStore.OneFile | source/fs.c:491-526 | an operation that leaves all other inodes alone changes one entry of the map of files |
| FileStore.WriteLocked | source/fs.c:491-526 | writei is the update of one file in the map, or none in the -1 cases; it panics exactly if it reaches more empty slots than there are free blocks |
| FileStore.TruncateLocked | source/fs.c:414-444 | itrunc empties one file in the map and never panics |
| FileStore.RemoveLocked | source/fs.c:331-349 | the deletion in iput takes one file out of the map and never panics |
| FileStore.Ialloc | source/fs.c:178-203 | adds an empty file of the type under the lowest free inode number; panics exactly if there is none |
| FileStore.Perform | source/fs.c:178-526 | one operation has its effect on the map, and panics exactly where there is none or a write lacks blocks |
| FileStore.Run | source/fs.c:178-526 | any run of create, lock, write, truncate and remove steps keeps one owner for every block in use, all inodes dense and synchronised, and has the effect of the same run on a plain map; it stops only at an operation without a result on the map, or a write for which the free blocks do not suffice |
| FileStore.FromBlank | source/fs.c:178-526 | the same for every run from a blank image, so the invariant holds in every reachable state |
| FileStore.MkfsRoot | uprogs/mkfs.c:151-156 | the entries are in the root directory, and after mkfs rounds its size up, every inode still has all its blocks exactly if the entries do not end on a block boundary; it gets there exactly if the data area has blocks enough for the entries |
| Transactions.RoomForOne | source/bio.c:82-93 | with six sectors pinned and three buffers held, one of the ten is usable |
| Transactions.LogCall | source/log.c:171-202 | read, change, log_write and release of one sector succeed for a sole user with at most six sectors pinned |
| Transactions.StepsPrefix | source/log.c:136-161 | after any part of a transaction's steps the atomic store has the old contents or those with all calls applied |
| Transactions.ImageOfTransaction | source/log.c:70-202 | every disk image of a transaction recovers to the contents before it or after it |
| Transactions.Transact | source/log.c:136-202 | begin, at most seven sectors and commit never panic, apply the calls, and every image on the way recovers to before or after |
| Transactions.Carry | source/file.c:156-182 | the same for a sequence of transactions: every image recovers to the disk between two of them |
| Transactions.SameBelow | source/fs.c:373-407 | two disks equal outside the log hold the same file system if no file owns a log sector |
| Transactions.ChunkHome | source/file.c:157-181 | a chunk's sectors lie outside the log exactly if no file owns a log sector after it |
| Transactions.FilewriteLogged | source/file.c:131-188 | the bytes that go in, all or a whole number of 1536-byte chunks as offset, size and file limit say, are spliced into the file and counted by the result, with -1 if some did not, and all other files are unchanged, exactly if there are blocks enough; exactly if the blocks are there below the log, the write stays off the log, nothing panics, and for a crash at any of its sector writes the recovered image is the file system after some whole number of chunks; otherwise the disk runs full or the log's header sector becomes a block of the file |
| Transactions.HomeIff | source/fs.c:59-77 | with the lowest free block taken each time, no log sector comes into use exactly if the needed blocks are at most the free ones below the log |
| Transactions.NoRoom | source/fs.c:59-77 | where the blocks below the log suffice, those of the whole disk do |
| Transactions.HeaderOverwritten | source/log.c:128-134 | recovery of any image clears the header sector, so a file's block there is not recovered unless it begins with a zero word |
| Transactions.CommitCalls | source/log.c:136-202 | a recorded transaction of at most six sectors outside the log commits, and every image on the way recovers to the files before it or after it |
| Transactions.RemoveLogged | source/fs.c:331-349 | the transaction of iput's deletion logs at most three sectors, and after a crash the file is there, whole, or gone |
| Transactions.CreateLogged | source/sysfile.c:305-328 | it succeeds exactly if an inode from 1 on is unused, the directory has a free entry or can grow by one, and there are blocks enough for the entry's place; it then takes the lowest unused inode, logs at most six sectors, and after a crash the new file and its name are both there or neither is; it stays off the log exactly if the blocks are there below it, as they are if two are free, and writes nothing otherwise |
| Transactions.BallocHome | source/fs.c:50-78 | balloc's block lies outside the log, which starts at size - nlog, exactly if some block below the log was free |
| Transactions.LogSectorTaken | source/log.c:63-64 | a file system and its log for which balloc's block is the log's header sector, where log_write is not allowed |
| Directories.Namecmp | source/fs.c:531-534 | compares names as cut at 14 characters or the zero |
| Directories.Strncpy | source/string.c:102-117 | the name field stands for the same name |
| Directories.LinkAdds | source/fs.c:583-599 | an entry in a free place adds one binding and keeps all others |
| Directories.LinkUnique | source/fs.c:571-602 | names stay bound at most once |
| Directories.Dirlookup | source/fs.c:538-568 | agrees with the directory as a map and gives the entry's offset; panics exactly on a file that is no directory, or if the name is missing and the last entry is partial |
| Directories.FindFree | source/fs.c:583-592 | the loop stops at the first free entry, or at the end of the directory |
| Directories.WriteEntry | source/fs.c:593-599 | one entry is replaced or added, exactly if the file may grow that far and there are blocks enough |
| Directories.Dirlink | source/fs.c:571-602 | -1 exactly if the name is bound; otherwise the first free entry, or one at the end, adds one 16-bit binding to the map, which is the inode exactly if 0 < inum < 65536, and every other file is unchanged; panics exactly on a file that is no directory, or if there is no room for the entry |
| Directories.LinkTruncates | source/fs.c:595-596 | 65537 binds the name to inode 1, and 65536 binds nothing |
| Paths.Skipelem | source/fs.c:619-652 | gives the first stretch between slashes, cut to 14 characters, and the rest of the path |
| Paths.SplitFirst | source/fs.c:607-652 | the character-by-character split of a path begins with that stretch and goes on behind its slashes |
| Paths.Icache.Iget | source/fs.c:228-262 | one entry per inode stays true, its count rises by one, and it panics exactly if the inode is not cached and no entry is free |
| Paths.FindIn | source/fs.c:681-684 | dirlookup in the locked directory finds what the stored directory holds |
| Paths.Icache.OneName | source/fs.c:668-688 | one round of the loop: the next inode of the chain, which the directory binds the name to, with the reference moved to it; or the end of the chain as for namex |
| Paths.Icache.Follow | source/fs.c:668-696 | namex's loop: lock, test the type, search, take the next inode and drop this one, along the chain of inodes that begins with the one held |
| Paths.Icache.Namex | source/fs.c:657-696 | finds i only if a chain of inodes from the root or the current directory ends at i, each a stored directory that binds the next name of the path to the next inode, for all names, or all but the last if the parent is asked for; gives 0 only where a chain stops at what is no directory or lacks the name; panics only at an unused inode, at a partial entry, or if the cache is full and lacks the next inode of the chain; one reference more on what is found, and no other count changed; no file changes |
| Paths.OneOutcome | source/fs.c:657-696 | for every path exactly one of the three holds: it leads to an inode, and to one only, or to none, or the walk panics |
| BuddyTiling.NoOverlap | source/buddy.c:192-281 | two blocks of a tiling that share a unit are the same block |
| BuddyTiling.SplitTiles | source/buddy.c:232-239 | halving an allocated block keeps the tiling |
| BuddyTiling.JoinTiles | source/buddy.c:274-280 | joining two buddies keeps the tiling |
| BuddyTiling.RegionInBlock | source/buddy.c:260-281 | without two free buddies, a free aligned region lies in one free block |
| BuddyTiling.FreeBlocksDetermined | source/buddy.c:260-281 | the free blocks are a function of the free units |
| BuddyTiling.AllFreed | source/buddy.c:260-281 | with nothing allocated, the free blocks are exactly the maximal ones |
| Buddy.LinksFaithful | source/buddy.c:27-31 | two indexes survive packing exactly if both fit 16 bits |
| Buddy.MarkBlk | source/buddy.c:157-189 | sets one bit and keeps the list threading exactly the non-empty marks; panics exactly on a marked block |
| Buddy.UnmarkBlk | source/buddy.c:115-154 | clears one bit and keeps the list, both directions; panics exactly on an unmarked block |
| Buddy.MarksSuffice | source/buddy.c:85-104 | the marks set aside cover every block of every order |
| Buddy.PoolOverflowsOrderSix | source/main.c:121-121 | which orders stay within 16-bit indexes for the memory that main hands over |
| Buddy.FarMarkLost | source/buddy.c:157-189 | linking a mark whose index needs more than 16 bits into a list leaves no list at all with both directions right |
| Buddy.LinkIn | source/buddy.c:176-188 | the insertion into any rightly threaded list is right exactly if the index is not 0xFFFF and, unless the list was empty, it and the old head fit 16 bits |
| Buddy.NilMarkLost | source/buddy.c:176-188 | linking in mark 0xFFFF makes the list look empty, whatever was on it |
| Buddy.PoolReaches | source/main.c:121-121 | main's heap has order-6 blocks with mark 0xFFFF and with marks beyond 16 bits |
| Buddy.Kmem.constructor | source/buddy.c:74-104 | clear bitmaps and empty lists, nothing free |
| Buddy.Kmem.Init | source/buddy.c:106-111 | freeing every maximal block leaves nothing allocated |
| Buddy.Kmem.GetBlk | source/buddy.c:192-216 | takes a free block of the order |
| Buddy.Kmem.KmallocRec | source/buddy.c:221-242 | an aligned block that was free, all other allocated blocks kept; none exactly if no free block is large enough |
| Buddy.Kmem.Kmalloc | source/buddy.c:245-258 | NULL exactly if no aligned free region of the order exists |
| Buddy.Kmem.KfreeRec | source/buddy.c:260-281 | for an allocated block, exactly its units become free and no two free buddies are left; for a free region it panics exactly if that is a free block, and otherwise marks it free a second time |
| Buddy.Kmem.Kfree | source/buddy.c:285-294 | the same for addresses and orders; panics on a bad order or a misaligned address, and on a free region exactly if it was not merged; the missed case breaks the tiling |
| Buddy.NoBlockNoRegion | source/buddy.c:221-242 | no free block of an order or more is the same as no free aligned region of that order |
| Buddy.StateFromAlloc | source/buddy.c:260-281 | the free blocks depend on what is allocated, not on the order of the calls |
| Buddy.BackToStart | source/buddy.c:74-112 | freeing everything in any order restores the initial state |
| Buddy.DoubleFreeCaught | source/buddy.c:268-270 | a free region is itself a free block, which the test sees, exactly if no larger free block holds it |
| Buddy.OverlapBreaks | source/buddy.c:268-281 | marking a merged free region free again is no tiling |
| Buddy.DoubleFreeMissed | source/buddy.c:268-270 | a heap and a block whose second free goes unnoticed |
| Procs.InvRun | source/proc.c:187-518 | the invariant holds after every interleaving of steps of any number of CPUs |
| Procs.NoLostWakeup | source/proc.c:437-492 | with its lock free, no process sleeps on a channel whose condition holds |
| Procs.FlagExclusive | source/log.c:136-161 | in every interleaving at most one process holds a busy flag, of the log, an inode or a buffer, and the flag is then set; seeing it clear and setting it are different steps |
| Procs.SeenTurn | source/log.c:140-144 | a condition changes only under its lock, so what another process has read of it, and not yet acted on, stays true |
| Procs.TakeObeys | source/log.c:136-146 | taking a clear flag under its lock is a run of the protocol and leaves the flag held |
| Procs.WaitObeys | source/log.c:136-146 | finding the flag set is a run that ends asleep on its channel with the lock free |
| Procs.GiveBackObeys | source/log.c:157-160 | clearing the busy flag and waking under the lock, as the log, inodes and buffers do, is a run the protocol allows and leaves nobody asleep on the channel |
| Procs.CpuAgreement | source/proc.c:329-397 | with ptable.lock free, RUNNING is being current on exactly one CPU |
| Procs.PickSafe | source/proc.c:337-362 | what the scheduler finds runnable has its context saved and is on no CPU |
| Procs.ReapSafe | source/proc.c:275-319 | wait frees a stack only when no CPU has the child as current |
| Procs.ForkTells | source/proc.c:187-226 | the steps of fork give a RUNNABLE child with a pid that nobody had and the caller as its parent; nothing else changes |
| Procs.ExitTells | source/proc.c:230-270 | exit leaves a zombie, hands its children to init, and makes exactly those RUNNABLE that sleep in wait for its parent, or for init if a child is a zombie; nothing else changes |
| Procs.ReapTells | source/proc.c:293-306 | what wait returns is the pid of a zombie child, whose entry is unused afterwards and whose pid nobody has; no other entry changes |
| Procs.SectionExclusive | source/proc.c:372-397 | one CPU at a time holds ptable.lock, across swtch too |
| Procs.ExitWait | source/proc.c:230-319 | every process but init has a live parent, and no parent of a zombie sleeps in wait |
| Procs.PidsReturnedOnce | source/proc.c:275-319 | no pid is returned twice, and none returned is in use |
| Procs.KillTells | source/proc.c:496-518 | kill marks the process with the pid and no other, and makes it RUNNABLE if it was SLEEPING; without such a process nothing changes |
| Pipe.CountersTell | source/pipe.c:94-146 | comparing the wrapping counters tells the true occupancy |
| Pipe.PutHolds | source/pipe.c:111-111 | storing at nwrite modulo 512 appends one byte and keeps all others, unless the ring is full |
| Pipe.TakeHolds | source/pipe.c:139-139 | reading at nread modulo 512 gives the oldest byte not read yet |
| Pipe.Ring.Write | source/pipe.c:94-117 | exactly the bytes from i to i' are appended; it stops early only on a full pipe, asleep if the read end is open and with -1 if not |
| Pipe.Ring.ReadBytes | source/pipe.c:119-146 | what is read continues what was read before, in order, as much as there is up to n; waits exactly on an empty pipe with its writer open, and gives up there exactly if killed |
| Pipe.Ring.Close | source/pipe.c:71-91 | closes one end, and frees the pipe exactly when both are closed |
| PipeRuns.Underneath | source/pipe.c:71-146 | every run of a pipe among all processes is a run of the process model, and the two sleep conditions are those of the pipe's state |
| PipeRuns.PipeFifo | source/pipe.c:94-146 | in every interleaving, with tests and accesses as separate steps, the ring at the places the wrapped counters name holds what was written and not yet read, and what was read is a prefix of what was written |
| PipeRuns.NextByte | source/pipe.c:134-140 | the byte taken from the ring is the next one in the order written |
| PipeRuns.NeverOverwrites | source/pipe.c:100-112 | a byte put in after a test under the lock overwrites none that was not read yet |
| PipeRuns.SleepingReader | source/pipe.c:119-146 | with p->lock free, a process SLEEPING on nread means an empty pipe with both ends open |
| PipeRuns.SleepingWriter | source/pipe.c:94-117 | with p->lock free, a process SLEEPING on nwrite means a full pipe with both ends open |
| PipeRuns.DebtOf | source/pipe.c:94-146 | putting a byte in makes only readers due a wakeup, taking one out only writers |
| PipeRuns.NoReaderLeaves | source/pipe.c:102-105 | pipewrite's -1 path may release the lock without a wakeup, since no process can wait at a closed read end |
| PipeRuns.WriteObeys | source/pipe.c:94-117 | all of pipewrite is a run of the process model: what fits goes in, and it returns, or sleeps on a full pipe having woken the readers, or leaves if there are none |
| PipeRuns.ReadObeys | source/pipe.c:119-146 | all of piperead is a run: the next bytes come out and no writer is left asleep, or it waits on an empty pipe with a writer unless killed |
| PipeRuns.CloseObeys | source/pipe.c:71-91 | all of pipeclose is a run: the end is closed and nobody is left asleep at the other |
| PageTables.PteFaithful | source/vm.c:139-139 | frame and access bits survive the entry's encoding |
| PageTables.TableAdded | source/vm.c:101-113 | a new empty table changes no page |
| PageTables.EntrySet | source/vm.c:89-151 | writing one table word changes one page |
| PageTables.EntriesKept | source/vm.c:89-151 | an address space does not notice changes to tables that are not its own |
| Vm.Memory.WalkPgdir | source/vm.c:89-117 | the table of an address, created empty on demand; the page map is unchanged; none exactly if there is no table and none may or can be made |
| Vm.Memory.MapAt | source/vm.c:122-151 | one page more in the map, and nothing else; fails exactly if the page is mapped or no table can be had |
| Vm.Memory.Allocuvm | source/vm.c:233-266 | grows by zeroed pages of its own exactly if there are frames enough, and otherwise restores every page and frame; panics exactly if page tables run out before frames do |
| Vm.Memory.Deallocuvm | source/vm.c:272-303 | exactly the pages from the new size on go and their frames are free; never panics |
| Vm.Memory.Freevm | source/vm.c:307-328 | every frame and table of the space is free, and nobody else's table changed |
| Vm.Memory.Copyuvm | source/vm.c:347-387 | the same pages with the same bytes and access bits in fresh, distinct frames and tables; NULL exactly if frames run short, with everything given back; panics exactly if page tables run out before |
| Vm.Memory.Growproc | source/proc.c:161-182 | growing succeeds exactly if the new size is below the limit and there are frames enough, and then maps zeroed frames of its own behind the old pages; shrinking cuts the pages off; a sum below zero wraps and changes nothing; the address space matches the size afterwards exactly if it was not a shrink to zero |
| Vm.Memory.GrowTo | source/proc.c:167-170 | the call of allocuvm: 0 with the new size exactly if the limit and the free frames allow it, -1 with everything as before if not |
| Vm.Memory.ShrinkTo | source/proc.c:172-175 | the call of deallocuvm: exactly the pages from the new size on are gone; -1 exactly if the size returned is 0 |
| Vm.Memory.GrowprocToZero | source/proc.c:161-182 | a process of one page that asks for size zero gets -1 and the old size, and its address space is empty |
| Vm.Memory.constructor | source/vm.c:57-64 | free tables and free frames, nothing mapped |
| Spaces.OneChanged | source/vm.c:233-303 | an operation on one directory that draws on its own and on free frames and tables keeps all address spaces disjoint |
| Spaces.OneAdded | source/vm.c:347-387 | so does a new directory made from free frames and tables |
| Spaces.OneGone | source/vm.c:307-328 | and giving one up |
| Spaces.Make | source/vm.c:355-361 | a new empty address space is disjoint from all others; none exactly if no table is free |
| Spaces.Grow | source/vm.c:233-266 | allocuvm keeps all address spaces disjoint and the others' page maps as they were, with the result that the free frames and tables determine |
| Spaces.Shrink | source/vm.c:272-303 | deallocuvm does too |
| Spaces.Copy | source/vm.c:347-387 | copyuvm adds one address space with the same contents, disjoint from all others, or changes none, as the free frames and tables determine |
| Spaces.Free | source/vm.c:307-328 | freevm removes one address space and keeps the others |
| Umalloc.FreedOk | uprogs/umalloc.c:33-43 | putting a block back keeps the circle ordered and coalesced and conserves every unit |
| Umalloc.FreeListDetermined | uprogs/umalloc.c:25-44 | the free list is a function of the free units |
| Umalloc.UnitsSuffice | uprogs/umalloc.c:69-69 | exactly which requests the computed number of units can hold |
| Umalloc.UnitsTooFew | uprogs/umalloc.c:69-69 | a request of 2^32 - 1 bytes computes one unit, the header alone |
| Umalloc.GrantCovers | uprogs/umalloc.c:51-59 | the recorded block lies within what sbrk gave exactly below 2^28 units; from there on the process shrinks or stays as it is |
| Umalloc.HugeRequests | uprogs/umalloc.c:69-69 | which requests compute 2^28 units or more |
| Umalloc.HugeRequest | uprogs/umalloc.c:51-59 | a request of 2^31 - 15 bytes passes sbrk the int -2^31 |
| Umalloc.Heap.FindPlace | uprogs/umalloc.c:30-32 | the walk around the circle ends at the node to put the block behind |
| Umalloc.Heap.Free | uprogs/umalloc.c:25-44 | exactly this block stops being live; units are conserved |
| Umalloc.Heap.Morecore | uprogs/umalloc.c:47-61 | at least 4096 units become free, and some free block is large enough; they lie in what sbrk gave exactly if fewer than 2^28 units were asked for |
| Umalloc.Heap.Search | uprogs/umalloc.c:74-89 | ends, asks sbrk exactly if nothing fits, and then at most once |
| Umalloc.Heap.Malloc | uprogs/umalloc.c:64-90 | a new live block of the computed size disjoint from all others, or null exactly if nothing fits and sbrk refuses; the heap stays within the process exactly if it did not ask sbrk for 2^28 units or more |
| Shell.GetToken | uprogs/sh.c:267-309 | the next token, its extent and the cursor, which never passes the end |
| Shell.Peeks | uprogs/sh.c:312-321 | whether the next character is one of the given ones |
| Shell.ParseRedirs | uprogs/sh.c:376-398 | the redirections from the cursor on, or the panic for a missing file |
| Shell.ParseExec | uprogs/sh.c:417-447 | the words and redirections of a simple command, or a block |
| Shell.ParseBlock | uprogs/sh.c:401-414 | a line in parentheses with the redirections behind it |
| Shell.ParsePipe | uprogs/sh.c:363-373 | a pipeline, grouped to the right |
| Shell.ParseLine | uprogs/sh.c:346-360 | a line with its ampersands and semicolon |
| Shell.ParseCmd | uprogs/sh.c:329-343 | ends on every input; every properly built line, however it is spaced, gives the tree it stands for, and whatever is accepted is such a line; what it returns is well formed and parses back from its printed form |
| Shell.TypedSpelt | uprogs/sh.c:267-309 | tokens typed with any white space around them, and some between two that would merge, are read back as these tokens |
| Shell.SpeltTyped | uprogs/sh.c:267-309 | whatever is read as a list of tokens is those tokens with white space around them |
| Shell.LineParsed | uprogs/sh.c:329-447 | a line built from words and redirections in any order, parentheses, bars, ampersands and semicolons, typed with any white space, is parsed as its tree: targets around the words in their order, bars grouped to the right, then ampersands, then semicolons |
| Shell.ParsedLine | uprogs/sh.c:329-447 | only such lines are parsed, with at most nine words a command |
| Shell.SimpleCommand | uprogs/sh.c:417-447 | words and targets in any order, with any white space, give the words with the redirections around them in the order in which they stand |
| Shell.RoundTrip | uprogs/sh.c:329-447 | printing any well-formed tree and parsing it gives the tree back |
| Shell.ParserRange | uprogs/sh.c:329-447 | the trees the parser returns are exactly those with at most nine proper words a command and proper file names |
| Grep.Match | uprogs/grep.c:72-81 | true exactly if some substring, anchored as the caret and dollar sign say, is in the pattern's language |
| Grep.MatchHere | uprogs/grep.c:84-95 | true exactly if the pattern matches at this position |
| Grep.MatchStar | uprogs/grep.c:98-105 | true exactly if some run of fitting characters is followed by a match of the rest |
| Grep.FirstItem | uprogs/grep.c:84-95 | the language of a pattern splits at its first item |

## Left out

- Assembly, MMU and cache maintenance, boot, trap entry and all device drivers; `swtch` is a control transfer and `acquire` an atomic test-and-set.
- System-call argument decoding, `exec`, `printf`, `fileread`, the file table's reference counts, and the other user programs are not modelled.
- Link counts: `FileStore.RemoveLocked` is what `iput` does to an inode without links, and when that happens is not modelled; `Paths.Icache.Iput`, which `namex` uses, is the decrement of a linked inode.
- `stati`, the T_DEV branches of `readi` and `writei`, and more than one device.
- The files that mkfs copies into the image: runs start from its blank image, with no file; `FileStore.MkfsRoot` adds the root directory, its entries in one write.
- That home sectors lie outside the log is a precondition of the log's results (`Geometry.Home`), since `balloc` can reach the log; `Transactions.BallocHome` says when it does not.
- BlockStore.Store.Bget: the sleep and retry on a busy buffer is a result (`MustSleep`); that the sleep loses no wakeup is `Procs.NoLostWakeup`.
- BlockStore.Store.Brelse: the buffer shows the flat map's contents; a buffer that was changed and neither logged nor written back is not released.
- BlockStore.Store.InstallTrans: no other process may hold the buffer of a logged sector while it runs.
- BlockStore.Store.CommitTrans: no other process may hold the buffer of a logged sector while it runs.
- Files.FileSys.Filewrite: the inode is unlocked between chunks, so one splice means that no other process writes the file in between; each chunk by itself is one splice without that.
- Transactions.FilewriteLogged: where the disk runs full, or a chunk would need the log's own sectors, the model puts nothing in the log, while the code has committed the chunks before; one process at a time uses the cache, the log has room for seven sectors, and the bitmap is one sector; a chunk's calls of `log_write` reach the log in the order in which `Files.FileSys.Chunk` records them.
- Transactions.CreateLogged: the link count and device numbers that `create` sets, and the two entries of a new directory, are not part of it; one process at a time uses the cache, and the bitmap is one sector.
- Transactions.RemoveLogged: one process at a time uses the cache, and the bitmap is one sector.
- Paths.Icache.Namex: a directory entry with a number beyond the inode table counts as an inode that is not in use, where the code reads another sector.
- Paths.FindIn: the reference that dirlookup's iget takes is taken by its caller in the model.
- Procs: the scheduler, `wait` and `allocproc` may pick any eligible table entry, which allows more runs than the code's scan order; the scans under ptable.lock are one step each; pids do not wrap; `sys_sleep` is not a client, because ticks changes without its lock; the failure paths of `allocproc` and `fork` are one step; a pipe end is closed only while no process waits at it, which the file's reference count sees to.
- PipeRuns: a pipe exists from boot on and is not freed and made again; `PipeRuns.WriteObeys`, `PipeRuns.ReadObeys` and `PipeRuns.CloseObeys` are about calls without interference, up to the first sleep.
- Buddy: a bitmap is the set of its bit positions, each order has its own array of marks rather than an offset into one, addresses count units of 64 bytes from the start of the heap; `get_order` is not modelled.
- Buddy.Kmem.constructor: each order has fewer than 0xFFFF marks, outside which the links fail as `Buddy.LinkIn` says.
- Buddy.Kmem.KfreeRec: the region is an allocated block of that order or entirely free.
- Buddy.Kmem.Kfree: the region is an allocated block of that order or entirely free; what the code does with other regions is not stated.
- Vm: frames and tables go by physical address; `alloc_page` and `kpt_alloc` draw on two separate sets, so the choice of pool in `kpt_free` is not modelled; `mappages` is used, and modelled, for one page at a time; `uva2ka`, `copyout`, `loaduvm` and `clearpteu` are not modelled.
- Vm.Memory.Deallocuvm: for spaces mapped from address 0 without a gap, the only kind the kernel builds; in others the step over an absent table skips the first page of the next megabyte.
- Vm.Memory.Freevm: for spaces mapped from address 0 without a gap.
- Umalloc.Heap.Malloc: sbrk's answer is a parameter, aligned to a header and above everything handed out before.
- Umalloc: users do not overwrite headers, and `Umalloc.Heap.Free` is called on live blocks only.
- Shell: `nulterminate` and the execution of commands; a word is the stretch of the buffer between its two pointers, and the innermost command gets its words when they are complete rather than one by one in place.
- Grep: the line loop of `grep` and its buffer.
- Directories.Strncpy: used on the 14-byte name field only.
