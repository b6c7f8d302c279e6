# xv6 core protocols in Dafny

A Dafny 4.11 model of the xv6-riscv kernel (with the `mmap` system calls) and of three of its user
programs. `dafny verify dfyconfig.toml` checks all of it.

Code that works by changing things step by step is modelled by classes with loops: the buffer cache is
an array of doubly linked nodes, the log a class over it, page tables are pages of 512 entries, the
allocator works on block headers, the parser on a buffer and a position. Code that several CPUs or a
device execute at once is modelled as a transition system, and its theorems are about every run of it.
A panic is an outcome of the model, so that a contract says when it happens or that it does not.
Constants that the results do not depend on (`LOGSIZE`, `MAXOPBLOCKS`, `NBUF`, the log region's length,
`NUM`, `NFILE`, `NINODE`, the numbers of processes and CPUs) are parameters.

## What is proved

**Logging and the buffer cache** (`Blocks`, `CacheModel`, `LogDisk`, `LogMachine`, `LogInvariant`, `LogCore`,
`LogSteps`, `LogRoom`, `LogRefinement`, `LogRuns`, `LogOverrun`, `LogStray`, `LogAdmission`, `Bio`, `LogCode`).
A state of `LogMachine` is the disk, the cache with its LRU order, reference counts, locks and pins, the log
header in memory and the operations of all processes; its steps are those of `bget`, `acquiresleep`, the disk
read, a change to a locked buffer, the tests of `log_write` and, after its `acquire`, its append, `brelse`,
`begin_op`, `end_op`, each single disk write of `commit` and of recovery, and power failure, which can come
between any two steps, recovery included. Some facts hold whatever the sizes (`LogCore`). Every run is a run of
a block map in which only an open operation writes, commit makes everything written so far durable at once, and
power failure falls back to what was durable: exactly for the sizes of `LogRoom.Contained`, xv6's own among them.
`Bio.Bcache` and `LogCode.Log` are the code, and their methods make exactly these steps.

**Files** (`FsFormat`, `FsState`, `FsTrunc`, `FsCode`, `FsCrash`, `FsLog`, `Mkfs`). Over that block map: each data
block is owned by at most one slot of one inode, the bitmap has exactly the owned and the metadata blocks set,
`bmap`, `readi`, `writei` and `itrunc` act on a file as on a sequence of bytes, and a transaction of `filewrite`
stays within `MAXOPBLOCKS`. Each of its transactions is a run of the log, and a power failure after any disk write
leaves a sound file system with a whole number of its pieces written. The image that `mkfs` builds is a sound file
system, on an exact condition.

**Names, links and open files** (`Paths`, `InodeCache`, `Links`, `NameCode`, `DirFormat`, `DirCode`, `DirTree`,
`FreshTree`, `OpenFiles`). A path walk is a fold of directory lookup over the path's components; every call leaves
the inode references as it found them but for the one it returns; an inode's link count is the number of directory
entries naming it, and each directory hangs in the tree by one name. Directories are also files of sixteen-byte
entries: on them `link`, `unlink` and `create` are transactions of a bounded number of blocks, of which a power
failure leaves all or nothing, and do to the tree that the disk's bytes stand for what they do to the tree of
entries; from the image of `mkfs` on, every run of them keeps that tree sound. A file's reference count is the
number of descriptor and `mmap` slots that point at it.

**Virtual memory** (`PageTable`, `VmState`, `VmFree`, `VmCopy`, `VmNeed`, `VmBytes`, `VmCode`, `VmWorld`). The three-level
tree refines a flat map from virtual page to entry. For all processes together, every page that `kinit` gave out
is on the free list, belongs to one process as one of its tables or under one of its virtual pages, or is held
by the rest of the kernel, from boot on, through creation, growth, shrinking, `fork` and destruction; what one
process does leaves another's map and bytes alone. Which page of the parent `uvmcopy` stops at is a function of
the tables and of the number of free pages.

**User allocator** (`FreeList`, `Umalloc`). The free list is ordered and has no touching blocks, so it is
determined by the set of free units; units are conserved.

**Sleep-locks and the scheduler** (`SleepMachine`, `SleepProof`). For any number of CPUs and processes, with the
timer interrupting wherever no spin-lock is held: a sleep-lock has one owner, no wakeup is lost, a process runs
on one CPU.

**The virtio queue** (`DiskQueue`, `Virtio`). With 16-bit indices that wrap and a device that completes
requests in any order, no ring slot is overwritten before it is read and each request completes once.

**grep and the shell** (`Grep`, `ShellSyntax`, `ShellLex`, `ShellCode`). The matcher decides a declarative
language of regular expressions; the parser inverts a printer on every command.

## Where the code falls short of its promises

- `log_write` tests the size of the list before it takes the lock, so two operations can both pass for the last
  log block. The list then outgrows the log region in some run exactly for the sizes of `LogRoom.Unsafe`
  (`LogOverrun.OverrunExactly`), which those of xv6 are. `write_log` then copies a block over the one after the log,
  and what is durable changes without a commit, exactly when the cache is also larger than the log
  (`LogStray.StrayExactly`, `LogStray.RefinesExactly`). In xv6 both have 30 blocks, and the kernel stops in `bget`
  instead (`LogStray.Xv6Overruns`), so that crash atomicity holds of every run (`LogStray.Xv6Refines`).
- `mkfs` makes the log region as long as `LOGSIZE`. There `log_write` panics with "too big a transaction" on an
  operation that has a block of its `MAXOPBLOCKS` left, exactly when it is the last block that any operation has
  left (`LogAdmission.PanicAtLogsize`), and such a state is reached for every `MAXOPBLOCKS` of which two fit in
  `LOGSIZE` (`LogAdmission.PanicWithBlockLeft`). With a longer region an operation within its reservation is safe on
  a block not logged yet (`LogAdmission.PanicMeansSpent`); but the size check comes before the search for an entry to
  absorb into, so rewriting a logged block panics when the log is full (`LogAdmission.PanicOnAbsorption`).
- When `either_copyin` fails after copying part of a block, `writei` releases the buffer without `log_write`. The
  bytes are visible and no transaction carries them, unless the block was new, already logged in the transaction, or
  is as it was when the transaction began: `FsCode.FileSystem.Writei` has the condition on the state before the call,
  `FsCode.FileSystem.TornWrite` the writes that fail it, `Mkfs.TornInstance` one on a new disk.
- `mkfs` rounds the size of the root directory up to the next block boundary even when it is on one. The image is
  sound exactly when it is not: `Mkfs.Image.Finish`, `Mkfs.Image.Build`. With 62 files, as with any number whose
  entries fill whole blocks, the size takes in a block that was never allocated. It does not look whether two names
  are the same, either: the link counts and the tree of the image are right exactly when the names, cut to `DIRSIZ`,
  differ from each other and from the dots (`FreshTree.FreshSound`).
- `create` and `link` do not look whether the parent directory has been removed. The link counts stay right
  exactly when it has not: `Links.CreateNeedsLinked`, `Links.LinkNeedsLinked`, `Links.DirNeedsLinked`, with
  `Links.CreateInRemoved` as the instance.
- The comment on `uvmunmap` says that the mappings must exist; the code skips entries that are not valid,
  and the model follows the code. It panics when a whole level-0 table is missing.
- `uvmcopy` is said to free what it allocated on failure. Its error path goes through `uvmunmap` on the
  child, which panics when the child was never given a level-0 table for a page before the one where memory ran out,
  or when such a page has no flag but V. `VmCode.Vm.Uvmcopy` says exactly when; `VmWorld.StuckFork` is an instance.

## Model

| member | source | states |
|---|---|---|
| Blocks.HeadRoundTrip | kernel/log.c:86-114 | read_head finds in a header block exactly the count and the block numbers that write_head put there, whatever the buffer held before |
| CacheModel.ScanMeaning | kernel/bio.c:66-73 | the forward scan finds the first buffer of the ring caching the block, and fails only when no buffer caches it |
| CacheModel.VictimMeaning | kernel/bio.c:77-88 | the backward scan finds an unreferenced buffer all of whose less recently used ones are referenced, and fails only when every buffer is referenced |
| CacheModel.ChooseMeaning | kernel/bio.c:58-89 | bget gives the cached copy if there is one, else the least recently used unreferenced buffer; it panics exactly when the block is not cached and every buffer is referenced |
| CacheModel.ReferenceKeepsRing | kernel/bio.c:58-89 | bget keeps the ring a permutation of the buffers and never gives a block of a real device a second buffer |
| CacheModel.ReleaseKeepsRing | kernel/bio.c:116-137 | brelse keeps the ring a permutation of the buffers |
| Bio.UnlinkKeeps | kernel/bio.c:128-129 | taking a node out of a well-linked ring by its two pointer writes leaves the ring of the others, well linked in both directions |
| Bio.PushFrontKeeps | kernel/bio.c:130-133 | the four pointer writes behind head make the node the first of a well-linked ring |
| Bio.Bcache.constructor | kernel/bio.c:36-53 | binit leaves a well-linked ring of all the buffers, none referenced, none valid |
| Bio.Bcache.Bget | kernel/bio.c:58-89 | the pointer walks choose the buffer that the LRU specification chooses, and reference it; nothing changes when it panics |
| Bio.Bcache.Bread | kernel/bio.c:92-103 | the buffer returned is locked, valid, and holds what the disk or the cache has for the block; the caller waits with a reference to it exactly when another process has its lock |
| Bio.Bcache.Bwrite | kernel/bio.c:106-112 | exactly the block of the buffer is written to the disk, as one transfer; panics exactly when the caller does not have its lock |
| Bio.Bcache.Brelse | kernel/bio.c:116-137 | the buffer is unlocked, loses a reference and with its last one becomes the most recently used; the other buffers keep their order; panics exactly when the caller does not have its lock |
| Bio.Bcache.Bpin | kernel/bio.c:139-144 | one more reference, so that the buffer is not a victim; nothing else moves |
| Bio.Bcache.Bunpin | kernel/bio.c:146-151 | one reference less; nothing else moves |
| LogDisk.LogBlockWrite | kernel/log.c:178-191 | with an empty header on disk, a write to a log block changes nothing that recovery would produce |
| LogDisk.HeadWriteCommits | kernel/log.c:102-114 | the one write of the header turns what recovery would produce from the old map into the map with every logged block replaced |
| LogDisk.InstallWrite | kernel/log.c:68-83 | copying a logged block home changes nothing that recovery would produce, in any order and any number of times |
| LogDisk.EraseWrite | kernel/log.c:200-201 | clearing the header changes nothing that recovery would produce once every logged block is home |
| LogCore.StepCore | kernel/log.c:68-235 | whatever the sizes, every step keeps the cache, the reference counts, the reservations and the list consistent |
| LogRoom.AppendFits | kernel/log.c:219-232 | the block that log_write is about to add has a log block of its own, unless the region is no longer than LOGSIZE, two operations fit in it, and there are processes, buffers and blocks enough to fill it |
| LogRefinement.StepRefines | kernel/log.c:68-235 | every step of every process, of commit, of recovery, and power failure, from a state in which the list fits the log or has outgrown it, leads to such a state and is a step of the atomic block map, but for a transfer of write_log to a block outside the log region |
| LogRefinement.RunRefines | kernel/log.c:68-235 | every run of the log over the cache, with crashes anywhere, is a behaviour of the atomic block map, and ends in the map its state stands for, for all sizes with which write_log stays inside the log region |
| LogRefinement.BootRefines | kernel/log.c:54-65 | the same from power-on over any disk image the log code can leave: the first map that readers see is the durable one |
| LogRefinement.DurableIsQuiescent | kernel/log.c:10-22 | what is durable is always a map that was visible at a moment when no operation was open: no operation is ever half durable |
| LogRefinement.LossFallsBack | kernel/log.c:10-22 | after a power failure readers see the map of the last commit, every write before it and none after |
| LogInvariant.VolCached | kernel/bio.c:1-16 | the cache is transparent: a valid buffer of a block holds what the block map has for it |
| LogOverrun.OverrunExactly | kernel/log.c:214-235 | from power-on over any image, some run logs as many blocks as the log region has if and only if the sizes are unsafe |
| LogStray.StrayExactly | kernel/log.c:178-191 | some run has write_log write outside the log region if and only if the sizes are unsafe, the cache has more buffers than the log has blocks, and a block follows the log |
| LogStray.RefinesExactly | kernel/log.c:10-22 | from power-on over any image, every run is a behaviour of the atomic block map if and only if the sizes are not those; for those sizes a run changes the durable map with no commit |
| LogStray.Xv6Overruns | kernel/param.h:9-12 | with the constants of xv6 and the log of mkfs a run fills the log region; none writes outside it, because bget then has no buffer for the first log block and panics |
| LogStray.Xv6Refines | kernel/param.h:9-12 | with the constants of xv6 and the log of mkfs every run is a behaviour of the atomic block map, although the sizes are unsafe |
| LogAdmission.RunAdmits | kernel/log.c:126-175 | in every run, whatever the sizes, the logged blocks are distinct home blocks, they and the unspent reservations fit in LOGSIZE, commit excludes operations, and the panics of end_op and of log_write outside a transaction do not happen; the list fits the log region unless the sizes are unsafe |
| LogAdmission.GuardsHold | kernel/log.c:68-123 | the conditions that the machine puts on a step and the code does not check hold in every reachable state |
| LogAdmission.PanicMeansSpent | kernel/log.c:214-221 | with a log region longer than LOGSIZE, "too big a transaction" happens exactly when the log is full, and then never to an operation with reservation left |
| LogAdmission.PanicAtLogsize | kernel/log.c:214-221 | with a region of LOGSIZE blocks it happens exactly when all but one block of LOGSIZE are logged; an operation with reservation left meets it only with one block left, the last of all operations, so with MAXOPBLOCKS above 1 never before it has logged something |
| LogAdmission.PanicWithBlockLeft | mkfs/mkfs.c:25 | with the region that mkfs makes, for any MAXOPBLOCKS of which two fit in LOGSIZE and over any image, a run reaches that panic in an operation with a block of its reservation left |
| LogAdmission.PanicOnAbsorption | kernel/log.c:214-232 | with a longer region, likewise, a run reaches the panic on a block that is in the log already |
| LogCode.Log.constructor | kernel/log.c:54-65 | power-on over any image the log code can leave is an initial state of the machine |
| LogCode.Log.WriteLog | kernel/log.c:178-191 | a run of the machine that writes each logged block once; cut off after any write, recovery finds the old durable map; it stops only when every buffer is referenced |
| LogCode.Log.StoreHead | kernel/log.c:102-114 | with a list the single write makes the visible map durable, with an empty one it changes nothing durable |
| LogCode.Log.InstallTrans | kernel/log.c:68-83 | every logged block reaches its home; cut off after any write, recovery finds the same durable map |
| LogCode.Log.ReadHead | kernel/log.c:86-97 | the list in memory becomes the one on the disk, as a step of the machine |
| LogCode.Log.RecoverFromLog | kernel/log.c:116-123 | cut off after any of its writes it can start again with the same result; when it completes, readers see exactly the durable map, which is unchanged, and the log is empty; with nobody else using the cache two buffers are enough |
| LogCode.Log.Commit | kernel/log.c:193-203 | a failure before the header write recovers to the old durable map, after it to the map visible when commit began; when it completes that map is durable and the log empty; with nobody else using the cache it completes if the list is shorter than the cache |
| LogCode.Log.BeginOp | kernel/log.c:126-142 | an operation is admitted exactly when no commit is running and the log has room for every outstanding reservation and its own |
| LogCode.Log.EndOp | kernel/log.c:146-175 | the last operation to end is the one that commits, and then no operation is open; neither panic happens |
| LogCode.Log.LogWrite | kernel/log.c:214-235 | with nobody else between its test and its lock, the block is in the list once and its buffer pinned once, by absorption or as a new entry; it fails exactly when the log is full |
| LogCode.ReachesKeepsMap | kernel/log.c:193-203 | nothing that commit or recovery does changes what a reader sees |
| FsFormat.PutBitValue | kernel/fs.c:74-76 | the bit of the bitmap is set and cleared as the byte operations of the source do it |
| FsFormat.WithBitTests | kernel/fs.c:64-103 | writing the bit of one block changes the bit of no other, across bytes and bitmap blocks |
| FsFormat.InoRoundTrip | kernel/fs.c:221-237 | reading an inode back gives what was stored, and storing it leaves the other inodes of the block alone |
| FsState.AllocateKeeps | kernel/fs.c:64-86 | allocating a free block changes the bytes of no file, and nobody owned it |
| FsState.FreeKeeps | kernel/fs.c:89-103 | freeing a block that no slot has changes the bytes of no file and keeps the bitmap exact |
| FsState.FillDirect | kernel/fs.c:383-387 | putting a cleared block in an empty direct slot keeps ownership exclusive and the bytes of every file |
| FsState.FillIndirect | kernel/fs.c:391-393 | a cleared indirect block adds no entry: ownership and all bytes stay as they were |
| FsState.FillEntry | kernel/fs.c:394-399 | the same for an empty entry of the indirect block |
| FsState.StoreBytes | kernel/fs.c:496-506 | overwriting a block of a file changes the bytes of that block of that file and of nothing else |
| FsCode.FileSystem.Bzero | kernel/fs.c:50-59 | exactly the one block becomes zero |
| FsCode.FileSystem.Balloc | kernel/fs.c:64-86 | the lowest free block, now marked and cleared; it panics exactly when every block is in use |
| FsCode.FileSystem.Bfree | kernel/fs.c:89-103 | exactly that block becomes free; it panics exactly when it was free |
| FsCode.FileSystem.Bmap | kernel/fs.c:377-405 | the block of a file at an index: the one it has, with no change at all, or a new one owned by nobody, with the bytes of every file as before; it panics on an index of MAXFILE or more, and otherwise only on a full disk |
| FsCode.FileSystem.Iupdate | kernel/fs.c:221-237 | the disk copy of the inode becomes the memory copy, every other disk inode and all storage stay |
| FsCode.FileSystem.Readi | kernel/fs.c:455-477 | exactly the requested bytes of the contents, cut at the size, none on a bad offset or wrap-around; -1 exactly when the destination cannot take them all, and then those it can take are delivered; nothing is allocated or logged |
| FsCode.FileSystem.Writei | kernel/fs.c:486-517 | returns -1 exactly on an offset past the end, wrap-around or a file too large; else the number of bytes in pieces that the user copy gave whole, which are spliced into the contents; other files unchanged, the inode stored, at most MAXOPBLOCKS logged blocks for three blocks of data; when a piece is cut off, every changed block is logged if and only if no byte of the piece came, its block was not allocated or already logged at the call, or the bytes make it what it was when the transaction began |
| FsCode.FileSystem.FaultChunk | kernel/fs.c:500-503 | when the user copy fails inside a piece, the bytes it gave are in the file's block, and the same condition for that piece |
| FsCode.FileSystem.TornWrite | kernel/fs.c:496-506 | the first write of a transaction, inside a file, that gets part of its first piece and a byte other than the one there, leaves a changed block unlogged |
| FsCode.FileSystem.FreeDirect | kernel/fs.c:416-421 | the direct blocks are free, no other inode notices, and "freeing free block" does not happen |
| FsCode.FileSystem.FreeIndirect | kernel/fs.c:423-433 | the same for the entries of the indirect block and for itself |
| FsCode.FileSystem.Itrunc | kernel/fs.c:409-437 | exactly the blocks of the inode become free, it is empty in memory and on disk, and the contents of every other file stay; beside its own block it logs only bitmap blocks, at most one more than the disk has whole ones |
| FsCode.FileSystem.Filewrite | kernel/file.c:151-176 | every transaction stays within MAXOPBLOCKS and logs every block it changes, but the last one when a block was copied in part; a prefix of the buffer is written, all of it exactly when the length is returned; -1 exactly on a start past the end, a file too large or bytes the user does not have; each transaction begins and ends with a sound disk, and after its t-th the file has the first t pieces |
| FsCode.BookedTotal | kernel/file.c:151-163 | three blocks of data at any alignment touch at most MAXOPBLOCKS - 1 blocks: data, indirect block, bitmap |
| FsCode.SpliceTwice | kernel/file.c:157-175 | two adjacent writes are one |
| FsCrash.KeptThroughout | kernel/log.c:10-22 | whatever property of the block map each stretch of open operations keeps is true of what is durable in every state of a behaviour, and of what is visible whenever no operation is open |
| FsCrash.DurablePrefix | kernel/log.c:10-22 | when one process makes a chain of transactions and the others only read, what is durable at any moment is the disk before the chain or after some transaction of it |
| FsCrash.FilewriteSurvives | kernel/file.c:151-176 | from power-on over a sound disk, in any interleaving in which one process makes the transactions of a filewrite and the others only read, and wherever power fails, recovery finds a sound file system in which the file has the first pieces of the write, as many as transactions had committed, and every other file is as it was |
| FsLog.Transact | kernel/log.c:126-235 | begin_op, bread, log_write and brelse of each block and end_op, for a transaction of at most MAXOPBLOCKS blocks, are a run of the machine; a power failure recovers the map before it up to the write of the header and the map after it from that write on |
| FsLog.Perform | kernel/log.c:126-235 | a chain of such transactions is a run of the machine, and a power failure after any of its disk writes recovers the disk between two of them |
| FsLog.PerformFilewrite | kernel/file.c:151-176 | the transactions of filewrite are such a chain: a power failure after any disk write recovers a sound file system with a whole number of pieces in the file |
| FsLog.PerformCall | kernel/sysfile.c:119-284 | a transaction of link, unlink or create is a run of the machine, and a power failure after any disk write recovers the disk before the call or the disk after it, both sound |
| Mkfs.BitsTest | mkfs/mkfs.c:246-260 | the bitmap that balloc writes has exactly the bits of the blocks handed out |
| Mkfs.Image.constructor | mkfs/mkfs.c:92-119 | an image with nothing in it is a sound file system with every inode unused |
| Mkfs.Image.Ialloc | mkfs/mkfs.c:231-243 | the next inode, with its type, one link and nothing in it; no other changes |
| Mkfs.Image.BlockFor | mkfs/mkfs.c:278-294 | the block of a file at an index, the next unused one if it has none, for it or for its indirect block; no other slot changes; fails exactly when the blocks it needs are not there |
| Mkfs.Image.Iappend | mkfs/mkfs.c:264-305 | exactly the bytes are added at the end of the file, no other file changes, and the blocks handed out are those that the new size needs and the old one did not, indirect block included; fails exactly on a file too long or too few blocks |
| Mkfs.Image.Finish | mkfs/mkfs.c:166-173 | the finished image has every block owned once and an exact bitmap, only the size of the root directory has changed, and it is a sound file system if and only if that size was not on a block boundary |
| Mkfs.Image.Build | mkfs/mkfs.c:118-173 | the image holds the files given, with their types, one link each and their bytes, a root directory of the dots and their names in order, padded with zeros, and no other inode in use; it is sound if and only if the entries of the root directory do not fill whole blocks; it succeeds if and only if the inodes suffice, no file or directory is too long, and the blocks of all of them, rounded up and with their indirect blocks, fit |
| Mkfs.TornInstance | kernel/fs.c:500-503 | on a new disk with one file of one byte, a write of two bytes of which one can be copied leaves a changed block unlogged |
| Paths.ComponentsAreNames | kernel/fs.c:586-622 | repeated skipelem yields the non-empty pieces between slashes, each cut to DIRSIZ characters |
| Paths.ParentOfWalk | kernel/fs.c:628-661 | nameiparent stops one component early: where the path without its last component leads, if that is a directory, and looking up the last one there is the whole walk |
| NameCode.Skipelem | kernel/fs.c:599-622 | the first component and the rest, none exactly when there is no component; the rest is empty exactly when it has no component |
| InodeCache.CountIs | kernel/fs.c:242-273 | with one slot per inode, the count in the slot is the number of references to the inode |
| NameCode.Inodes.Iget | kernel/fs.c:242-273 | one more reference to exactly that inode, in the slot that has it if any; it panics exactly when every slot is in use |
| NameCode.Inodes.Idup | kernel/fs.c:277-284 | one more reference to the same inode |
| NameCode.Inodes.Ilock | kernel/fs.c:288-313 | the slot is valid afterwards; it panics exactly on an inode that is not in use |
| NameCode.Inodes.Iput | kernel/fs.c:332-358 | one reference less; the inode is freed exactly when that was the last one, the slot was valid and there is no link |
| NameCode.Inodes.Dirlookup | kernel/fs.c:529-553 | the inode of the first entry with the name and its offset, with one new reference; none exactly when there is no such entry; panics on an inode that is not a directory |
| NameCode.Inodes.Dirlink | kernel/fs.c:556-583 | the entry goes in the first free place or at the end; it fails exactly when the name is taken, and then no reference is left over; panics on an inode that is not a directory |
| NameCode.Inodes.Namex | kernel/fs.c:628-661 | the inode that folding lookup over the components reaches, for nameiparent one component early with the last name; on every exit the references are those before but for one on the inode returned |
| Links.AddName | kernel/sysfile.c:119-166 | a new entry for a file in a linked directory, with one link more, keeps every link count equal to the number of entries naming the inode |
| Links.DropName | kernel/sysfile.c:184-239 | removing an entry of a file with one link less keeps the counts |
| Links.EmptyDirLinks | kernel/sysfile.c:211-216 | an empty directory has exactly one link, its ".." leads to the directory naming it, and that one has a link to spare |
| Links.DropDir | kernel/sysfile.c:218-229 | removing an empty directory, with a link less for it and for its parent, keeps counts and tree shape |
| Links.NewFile | kernel/sysfile.c:261-281 | a new file named in a linked directory keeps the counts |
| Links.NewDir | kernel/sysfile.c:261-281 | a new directory with its dots, named in a linked directory whose count goes up for "..", keeps counts and tree shape |
| Links.FreeInode | kernel/fs.c:337-353 | an inode without links is named nowhere, so freeing it keeps the counts |
| Links.CreateNeedsLinked | kernel/sysfile.c:247-281 | making a file keeps the link counts right if and only if the directory has not been removed |
| Links.LinkNeedsLinked | kernel/sysfile.c:145-151 | naming a file a further time keeps them right if and only if the directory has not been removed |
| Links.DirNeedsLinked | kernel/sysfile.c:270-281 | making a directory keeps counts and tree shape if and only if its parent has not been removed |
| Links.CreateInRemoved | kernel/sysfile.c:247-281 | a tree with a removed directory in use, and the file whose creation there breaks the counts |
| NameCode.Inodes.Isdirempty | kernel/sysfile.c:169-182 | true exactly when nothing but the dots is named |
| NameCode.Inodes.SysLink | kernel/sysfile.c:119-166 | the inode at the old path gets the new name, which was not taken, in the first free entry, and one link, right if and only if the directory is linked; -1, as against success, exactly for a missing or directory target, no parent or a taken name, with everything as before; references unchanged |
| NameCode.Inodes.SysUnlink | kernel/sysfile.c:184-239 | the name goes with its link, the inode is freed exactly when that was its last link and nobody uses it; -1, as against success, exactly for a missing name, a dot or a directory not empty; "unlink: nlink < 1" does not happen; references unchanged |
| NameCode.Inodes.Ialloc | kernel/fs.c:194-215 | the lowest-numbered inode that is not in use; panics exactly when all are |
| NameCode.Inodes.Create | kernel/sysfile.c:241-284 | the existing file or device, or the lowest-numbered unused inode with its name in the first free entry, link and dots, right if and only if the parent is linked; 0, as against success, exactly when there is no parent or the name is taken by something open does not accept; "create dots" and "create: dirlink" do not happen |
| DirFormat.EntryRound | kernel/fs.c:575-577 | the entry that dirlink stores reads back as the inode number and the name, for every name that a path can have |
| DirCode.Namecmp | kernel/fs.c:521-525 | comparing a name with the bytes of an entry, up to DIRSIZ characters or a NUL, decides whether the entry has that name |
| DirCode.Dirlookup | kernel/fs.c:529-553 | over the bytes of a directory: the inode number and the offset of the first entry with the name, none exactly when no entry has it; panics exactly on an inode that is no directory, or on a last entry that is cut off before the name is found; nothing changes |
| DirCode.EntriesPut | kernel/fs.c:579-580 | sixteen bytes spliced into a directory at an entry, or at its end, replace or add exactly that entry |
| DirCode.Dirlink | kernel/fs.c:556-583 | the entry goes in the first free place or at the end of the directory's bytes, no other file or entry changes, and only the block of the entry, those of its allocation and that of the inode are logged; -1 exactly when the name is taken; panics only on a full disk, a directory of the largest size, one with a cut-off entry, or an inode that is none |
| DirCode.Ialloc | kernel/fs.c:194-215 | the lowest-numbered unused inode, now with its type and nothing in it; one block is logged; panics exactly when every inode is in use |
| DirCode.Link | kernel/sysfile.c:141-166 | in one transaction of at most six blocks, which begins and ends with a sound disk: one link more and the name in the first free entry, or -1 with every inode as it was, exactly when the name is taken |
| DirCode.Unlink | kernel/sysfile.c:215-232 | in one transaction of at most six blocks, and those of the bitmap when the inode goes: the entry is free, the links of the inode, and of the directory when it was one, are one less, and the inode is unused and empty exactly when that was its last link and nobody has it; no other inode or file changes |
| DirCode.Create | kernel/sysfile.c:259-283 | in one transaction of at most nine blocks: the lowest-numbered unused inode with its fields, one link, its dots if it is a directory, and its name in the first free entry; the directory gains a link exactly for ".."; panics only when no inode or block is left or the directory cannot take an entry |
| DirTree.LinkTree | kernel/sysfile.c:141-151 | on the tree that the bytes of the disk stand for, link adds that entry and that link |
| DirTree.UnlinkTree | kernel/sysfile.c:215-228 | unlink removes that entry, the links, and the inode when it is freed |
| DirTree.CreateTree | kernel/sysfile.c:259-281 | create adds that inode, its entry, and for a directory its dots and the parent's link |
| DirTree.LinkKeeps | kernel/sysfile.c:141-151 | link in a directory that has not been removed keeps a disk's tree sound: right link counts, each directory by one name, whole entries, nothing in unused inodes |
| DirTree.UnlinkKeeps | kernel/sysfile.c:215-228 | so does unlink of a file or an empty directory |
| DirTree.CreateKeeps | kernel/sysfile.c:259-281 | so does create in a directory that has not been removed |
| DirTree.FileKeeps | kernel/fs.c:486-517 | writing to a file, or truncating it, leaves the tree as it was |
| DirTree.CallsKeep | kernel/sysfile.c:119-284 | every disk of every run of these calls has a sound tree, if the first one has |
| FreshTree.RootEntries | mkfs/mkfs.c:121-159 | the root directory of a new image reads as the dots, the files in order with their inode numbers, and free entries |
| FreshTree.FreshSound | mkfs/mkfs.c:121-171 | the tree of a new image is sound if and only if the names, cut to DIRSIZ, differ from each other and from the dots |
| FreshTree.Make | mkfs/mkfs.c:118-173 | mkfs makes an image with a sound tree if and only if that holds and the entries of the root directory do not fill whole blocks |
| OpenFiles.SlotGains | kernel/file.c:49-58 | a slot taking a reference with filedup keeps each count equal to the number of slots and hands pointing at the file |
| OpenFiles.SlotLoses | kernel/file.c:61-85 | a slot given up with fileclose keeps the counts, and there was a reference to give up |
| OpenFiles.FreeUnused | kernel/file.c:31-46 | a file with count 0 is in no descriptor and no mapping of any process |
| OpenFiles.FileTable.Filealloc | kernel/file.c:31-46 | the first file in use by nobody; none exactly when all are in use |
| OpenFiles.FileTable.Filedup | kernel/file.c:49-58 | one more reference; it panics exactly on a file with none |
| OpenFiles.FileTable.Fileclose | kernel/file.c:61-85 | one reference less, and with the last one what the file referred to is released; it panics exactly on a file with none |
| OpenFiles.FileTable.Fdalloc | kernel/sysfile.c:40-53 | the lowest free descriptor; none exactly when all are taken |
| OpenFiles.FileTable.Dup | kernel/sysfile.c:55-67 | the same file in the lowest free descriptor, counts exact; fails exactly on a bad descriptor or when none is free, and then nothing changes |
| OpenFiles.FileTable.Close | kernel/sysfile.c:94-105 | the descriptor is free; what the file refers to is released exactly when no slot of any process has it any more |
| OpenFiles.FileTable.Open | kernel/sysfile.c:325-342 | a file in use by nobody, in the lowest free descriptor, on the inode; fails exactly for want of a file or a descriptor, and then nothing changes |
| OpenFiles.FileTable.Pipealloc | kernel/pipe.c:22-56 | two files in use by nobody become the ends of the pipe; fails exactly for want of two files or of a page, and then the table is as before |
| OpenFiles.FileTable.Pipe | kernel/sysfile.c:457-486 | the two ends in the two lowest free descriptors; on each of its failures all slots, counts and files are as before |
| OpenFiles.FileTable.Mmap | kernel/sysfile.c:519-539 | the file in the first free mapping entry, counts exact; panics exactly when there is none |
| OpenFiles.FileTable.Munmap | kernel/sysfile.c:646-649 | the entry is given up exactly when nothing of it is left, and the file released with its last reference |
| OpenFiles.FileTable.Fork | kernel/proc.c:297-308 | the child has the parent's descriptors and mappings, and all counts are exact |
| OpenFiles.FileTable.Exit | kernel/proc.c:361-379 | the process has no file, the others keep theirs, all counts are exact |
| PageTable.PxInjective | kernel/riscv.h:343-345 | below MAXVA the three indices identify the page |
| PageTable.PteFields | kernel/riscv.h:334-339 | page number and flags come back out of the entry they were put in |
| PageTable.ExtendMap | kernel/vm.c:86-94 | hanging an empty table below a node of the tree changes no mapping |
| PageTable.StoreMap | kernel/vm.c:149-151 | writing an entry of a level-0 table changes the mapping of exactly one page |
| VmCode.Vm.constructor | kernel/kalloc.c:29-44 | exactly the managed pages are on the free list, each once |
| VmCode.Vm.Kalloc | kernel/kalloc.c:72-86 | the first page of the free list; none exactly when it is empty |
| VmCode.Vm.Kfree | kernel/kalloc.c:50-67 | the page is first on the free list and its contents are lost; panics exactly outside the managed range |
| VmCode.Vm.Uvmcreate | kernel/vm.c:189-198 | an address space with nothing mapped in the first free page, none exactly when there is none; the rest of the free list, the other tables and all data stay |
| VmCode.Vm.Walk | kernel/vm.c:80-98 | the level-0 table of a page; with alloc the mappings stay and exactly the tables missing on the way are added, failing exactly when they are more than the free pages; without alloc nothing changes |
| VmCode.Vm.Walkaddr | kernel/vm.c:103-121 | the physical page of a mapped user-accessible page below MAXVA, and nothing otherwise |
| VmCode.Vm.Mappages | kernel/vm.c:137-157 | exactly the pages of the range become mapped to consecutive frames; panics only at a page mapped already or beyond MAXVA, fails only when memory is used up, with the pages before it mapped; a page alone fails exactly when the tables missing for it are more than the free pages; an empty range at a page boundary never succeeds |
| VmState.DropProc | kernel/vm.c:179-183 | clearing an entry and freeing its page unmaps exactly that page and conserves the pages of the process |
| VmCode.Vm.Uvmunmap | kernel/vm.c:162-185 | exactly the range is unmapped and its pages are free, nothing else moves; panics if and only if the address is not aligned or a page of the range has no level-0 table or an entry with no flag but V |
| VmState.GrowDone | kernel/vm.c:229-239 | one more page: the frame goes from the free list to the map and nothing is lost |
| VmState.GrowFailed | kernel/vm.c:235-239 | when mappages fails the frame goes back and the map is as before |
| VmCode.Vm.Uvmalloc | kernel/vm.c:218-242 | the new pages are mapped and zero, the old ones keep their bytes; when memory runs out the map and the bytes are as before the call; three free pages for each new one are enough; panics only where a page is mapped already or beyond MAXVA |
| VmCode.Vm.Uvmdealloc | kernel/vm.c:248-260 | the pages above the new size are unmapped and free, those below keep their bytes; panics if and only if one of them is unfit for uvmunmap |
| VmCode.Vm.Freewalk | kernel/vm.c:264-280 | the recursion returns each table page under the node exactly once and touches no other page; completes only when nothing is mapped under it |
| VmCode.Vm.Uvmfree | kernel/vm.c:284-290 | afterwards the free list is exactly the pages that were free, tables or user pages of the process, each once, and no other page was touched; panics if and only if a page is unfit or one beyond the size is mapped |
| VmCode.Vm.Uvmcopy | kernel/vm.c:298-327 | the child has the parent's pages, flags and bytes in frames of its own, or no page when memory runs out; the parent is untouched; it stops at the first page for which the parent has no level-0 table or the free pages are fewer than the pages and tables needed so far, and panics if and only if it is the former, or before that page there is one for which the child got no level-0 table or one with no flag but V |
| VmNeed.CopyFits | kernel/vm.c:298-327 | with three free pages for each page of the parent uvmcopy stops only where the parent has no level-0 table |
| VmWorld.OnePlace | kernel/kalloc.c:20-26 | with all processes accounted for, a page of one is not free, not held by the kernel, not a page of another, and is one table or under one virtual page |
| VmWorld.WorldStep | kernel/vm.c:218-260 | work on one process that conserves its pages keeps every managed page in exactly one place, for all processes |
| VmWorld.Boot | kernel/kalloc.c:29-44 | after kinit every managed page is free |
| VmWorld.Create | kernel/vm.c:189-198 | uvmcreate keeps the account of all pages and leaves every process as it was |
| VmWorld.Grow | kernel/proc.c:247-257 | so does growing user memory, failures included |
| VmWorld.Shrink | kernel/proc.c:258-262 | so does shrinking it |
| VmWorld.Fork | kernel/proc.c:266-286 | so does making a child with a copy of the parent's memory, and every process, the parent included, keeps its map and its bytes; when memory runs out the free pages are those before the call |
| VmWorld.Exit | kernel/proc.c:144-152 | so does freeing a process: exactly its pages become free, and every other process keeps its map and its bytes |
| VmWorld.StuckFork | kernel/vm.c:319-326 | a machine of five pages, built by these calls, in which the error path of uvmcopy panics |
| VmCopy.Isolated | kernel/vm.c:298-327 | whatever conserves the pages of one process leaves the tree, the map and the bytes of every process with other pages as they were |
| VmCode.Vm.Copyout | kernel/vm.c:345-365 | exactly the user bytes from the address on become those of the source, up to the first page that is not accessible; no mapping changes |
| VmCode.Vm.Copyin | kernel/vm.c:370-390 | the user bytes at the address, all of them or up to the first that is not accessible |
| VmCode.Vm.Copyinstr | kernel/vm.c:396-433 | the bytes up to and with the first NUL within max; else none of them is NUL and the limit or an inaccessible byte was reached |
| FreeList.Canonical | user/umalloc.c:24-44 | an ordered free list without touching blocks is determined by the set of free units |
| FreeList.Coalesce | user/umalloc.c:30-43 | free keeps the list ordered with no blocks touching and adds exactly the units of the block |
| Umalloc.SlotHere | user/umalloc.c:30-32 | the search stops at a node exactly when the block belongs after it, the wrap at the ends of the list included |
| Umalloc.NextStage | user/umalloc.c:33-37 | after the first if the headers are those of the list with the block joined to its successor exactly when they touch |
| Umalloc.PrevStage | user/umalloc.c:38-42 | after the second if the same for its predecessor |
| Umalloc.Units | user/umalloc.c:69 | the least number of units that hold a header and the bytes |
| Umalloc.AllSmall | user/umalloc.c:74-88 | when the search is back at freep, no block of the list is large enough |
| Umalloc.Allocator.constructor | user/umalloc.c:69-73 | the list of the base block alone: nothing free, nothing allocated |
| Umalloc.Allocator.Slot | user/umalloc.c:30-32 | the search ends at the node after which the block belongs |
| Umalloc.Allocator.Merge | user/umalloc.c:33-42 | the pointer and size writes give exactly the list with the block coalesced, and touch no header of an allocated block |
| Umalloc.Allocator.Free | user/umalloc.c:24-44 | the block is no longer allocated and its units are free; every other allocated block keeps its header; units are conserved |
| Umalloc.Allocator.Morecore | user/umalloc.c:46-61 | the units from sbrk join the arena as free units, and a block of the size asked for exists |
| Umalloc.Allocator.Take | user/umalloc.c:75-85 | the tail of a larger block or a whole block of the exact size is allocated, disjoint from every allocated block |
| Umalloc.Allocator.Malloc | user/umalloc.c:63-90 | a block of the rounded-up size, disjoint from all allocated ones, exactly when the list has one or sbrk succeeds; sbrk is called exactly when the list has none; on failure nothing changes |
| SleepProof.CodeNeeds | kernel/proc.c:588-634 | the code acquires only spin-locks it does not hold, releases only ones it holds, and calls sched holding its own process lock alone |
| SleepProof.ProcKeeps | kernel/proc.c:534-670 | every step of a process in acquiresleep, releasesleep, sleep, wakeup, yield and kill, preempted wherever no spin-lock is held, keeps the invariant |
| SleepProof.StepKeeps | kernel/proc.c:489-670 | so does every step of the scheduler on any CPU |
| SleepProof.RunInv | kernel/proc.c:489-670 | so the invariant holds in every state of every run from boot |
| SleepProof.SleepSafety | kernel/sleeplock.c:21-41 | in every run: one owner per sleep-lock; a process asleep on one has its wakeup coming; a process whose lock is free is RUNNING exactly when one CPU, and only one, has it as current |
| SleepProof.NoPanic | kernel/spinlock.c:21-72 | in no run does acquire, release or sched panic |
| DiskQueue.SlotOf | kernel/virtio_disk.c:260-265 | taking the wrapped 16-bit index modulo the ring size gives the slot of the position |
| DiskQueue.RingRoom | kernel/virtio_disk.c:260-265 | while some descriptor is not the head of a request in a ring, the ring has room |
| DiskQueue.SubmitSound | kernel/virtio_disk.c:226-265 | filling a chain of three free descriptors and publishing it keeps the queue sound |
| DiskQueue.FetchSound | kernel/virtio_disk.c:260-265 | the device sees something to fetch exactly when a request is queued, and then it is the oldest |
| DiskQueue.CompleteSound | kernel/virtio_disk.c:297-302 | a completion in any order keeps the queue sound |
| DiskQueue.IntrSound | kernel/virtio_disk.c:300-312 | the driver sees something used exactly when a request is completed and not noticed; its status is 0 and its buffer the one submitted |
| DiskQueue.FinishSound | kernel/virtio_disk.c:272-280 | giving the chain back keeps the queue sound |
| DiskQueue.DescriptorCount | kernel/virtio_disk.c:188-201 | free descriptors and three for each pending request make up the whole table |
| Virtio.QueueSafety | kernel/virtio_disk.c:203-315 | in every run descriptors are conserved, each chain still holds the request submitted there, and no ring slot is written before it was read |
| Virtio.RunOk | kernel/virtio_disk.c:203-315 | every world of every run is sound, so that the shape on which events depend is never missing |
| Virtio.PhasesInOrder | kernel/virtio_disk.c:203-315 | a request is fetched once, completed once, noticed once, and leaves only after that |
| Virtio.Disk.constructor | kernel/virtio_disk.c:124-138 | everything free, both rings empty |
| Virtio.Disk.AllocDesc | kernel/virtio_disk.c:144-154 | the lowest free descriptor; none exactly when there is none |
| Virtio.Disk.FreeDesc | kernel/virtio_disk.c:157-170 | exactly that descriptor is free and cleared; panics exactly when it was free or out of range |
| Virtio.Disk.FreeChain | kernel/virtio_disk.c:173-185 | exactly the three descriptors of the chain are free, following next while its flag is set; no panic |
| Virtio.Disk.Alloc3Desc | kernel/virtio_disk.c:188-201 | three different free descriptors, or none taken exactly when fewer than three are free |
| Virtio.Disk.Start | kernel/virtio_disk.c:203-269 | the request joins the queue, unless fewer than three descriptors are free, and then nothing changes |
| Virtio.Disk.End | kernel/virtio_disk.c:271-280 | once the buffer is not busy, the request leaves and its descriptors are free; the panics of free_desc do not happen |
| Virtio.Disk.Intr | kernel/virtio_disk.c:282-315 | every completed request is noticed, each once and in order; with a device that reports success the status panic does not happen |
| Grep.Match | user/grep.c:70-80 | true exactly when some stretch of the text is in the language of the expression, at the start under ^ and at the end under a last $ |
| Grep.Matchhere | user/grep.c:82-94 | true exactly when a prefix of the text, all of it under a last $, is in the language |
| Grep.Matchstar | user/grep.c:96-104 | true exactly when the rest matches after some number of characters fitting c |
| Grep.HereStar | user/grep.c:82-94 | the language of c* followed by the rest, unfolded from the left |
| Grep.HereOne | user/grep.c:82-94 | the language of one character followed by the rest, unfolded from the left |
| ShellSyntax.PrintParse | user/sh.c:327-446 | parsing the printed tokens of any command with fewer than MAXARGS words each gives that command back, redirection order included |
| ShellLex.LexRender | user/sh.c:265-308 | scanning the text of any tokens gives the tokens back |
| ShellCode.Parser.Peek | user/sh.c:310-320 | whether the next token starts with one of the characters; no token is consumed |
| ShellCode.Parser.Gettoken | user/sh.c:265-308 | consumes exactly the next token, reports its kind, and for a word the span of exactly its text |
| ShellCode.Parser.Parseredirs | user/sh.c:374-397 | wraps the command in exactly the redirections that the grammar reads, or fails where a file name is missing |
| ShellCode.Parser.Parseexec | user/sh.c:415-446 | the command and the rest of the tokens that the grammar gives, its failures on syntax and too many words included |
| ShellCode.Parser.Parseblock | user/sh.c:399-413 | the same for a command in parentheses |
| ShellCode.Parser.Parsepipe | user/sh.c:361-372 | the same for a pipeline |
| ShellCode.Parser.Parseline | user/sh.c:344-359 | the same for a list with its background marks |
| ShellCode.Parser.Nulterminate | user/sh.c:449-493 | writes a NUL at the end of each word and file name of the command and nowhere else |
| ShellCode.Parser.Parsecmd | user/sh.c:327-342 | read as C strings from the buffer after termination, the result is the command of the grammar for the whole line, or fails where the grammar does |
| ShellCode.ParsePrinted | user/sh.c:327-493 | parsing the text of a printed command in place gives the command back, as C strings in the buffer |

## Left out

- Boot, trap and interrupt entry, `exec`, the console and UART drivers, device files, pipe contents, `stat`, and the kernel's own page table are not part of this model.
- User programs other than `sh`, `grep` and `umalloc`, and `runcmd` of the shell, are not part of this model.
- Of `mkfs`: the superblock's bytes, the stripping of directories and "_" from the names of the input files, and their reading; a disk that fills up, and more than 8191 blocks handed out, end the model's run where the program would write on or fail its last assertion; the metadata must leave room in the one bitmap block that it writes.
- Page faults of `mmap` areas and the write-back of `munmap` and `exit`: only the file references are modelled.
- A block reaches the disk as a whole: transfers torn between the two sectors of a block are not modelled.
- The log and cache machine has one device; a lock that is never released and the fairness of waking are not modelled, so nothing is said about progress other than that a step is possible.
- Memory is sequentially consistent in the machines; `__sync_synchronize` has no counterpart.
- SleepProof.SleepSafety: processes are RUNNABLE, RUNNING or SLEEPING and sleep on sleep-locks only; `wait`, `exit`, process creation, other sleep channels and the interrupt-enable flag are not modelled.
- LogCode.Log.Commit: one process at a time uses the code's objects, so locked buffers of others do not occur here; all interleavings are in `LogRefinement.RunRefines`.
- Bio.Bcache.Bread: when the buffer is locked the method ends where the process sleeps; the wait and what follows are steps of `LogMachine`.
- LogCode.Log.LogWrite: asks that the operation log no more than MAXOPBLOCKS distinct blocks, as `begin_op` demands of its callers.
- FsCode.FileSystem.Writei: how many bytes the user copy can give is a parameter, and so is how many `either_copyout` can take in `Readi`.
- FsCrash.FilewriteSurvives: one process writes and the others read; that inode locks make the transactions of several writing processes amount to a chain is not modelled.
- FsLog.Perform: one process at a time uses the code's objects; all interleavings are in `LogRefinement.RunRefines`.
- FsCode.FileSystem.Filewrite: on inodes that are files or directories; pipes and devices are not modelled.
- DirCode.Link: from the increment of the link count on, for a link count that the 16-bit field can hold; the path lookups and the inode references of the call are in `NameCode.Inodes.SysLink`.
- DirCode.Unlink: from the write of the free entry on, at the offset that the lookup gave; the lookups and references are in `NameCode.Inodes.SysUnlink`. The bound with the bitmap's blocks is within `MAXOPBLOCKS` for a disk of fewer than 32768 blocks.
- DirCode.Create: after the lookup found no entry, in a directory whose link count the 16-bit field can hold, and with inode numbers of 16 bits; the lookup and references are in `NameCode.Inodes.Create`.
- DirCode.Dirlookup: gives the inode number; the reference that `iget` takes is in `NameCode.Inodes.Dirlookup`.
- VmCode.Vm.Uvmunmap: with `do_free` set; without it only the table entries would change. Ranges lie below the pages accounted to the process.
- VmCode.Vm.Uvmcopy: into a child that maps nothing below the size and shares no page with the parent, as `fork` calls it.
- VmWorld.Fork: the trampoline and trapframe mappings of a process are above its size and belong to the pages held by the kernel; making and removing them is not modelled.
- Virtual addresses and sizes are unbounded numbers; wrap-around of 64-bit sums in `uvmalloc` and the copying loops, and the 32-bit page count of `uvmdealloc`, are not modelled.
- VmCode.Vm.Kfree: pages are page numbers, so the alignment check has no counterpart; what junk fills a freed page is not modelled, only that the old contents are gone.
- Umalloc.Allocator.Malloc: the address from `sbrk` is a parameter, above the base block and not in the arena; requests are small enough for `sbrk`'s int argument and the 32-bit size field.
- Umalloc.Allocator.Free: of a block that malloc returned and free has not had since; anything else is the caller's error.
- Virtio.Disk.Intr: the device reports success for every request.
- Virtio.Disk.Start: one pass of the wait for descriptors, for a buffer in no other request; sleeping, the request header's bytes and the transfer of data are not modelled.
- NameCode.Inodes.Namex: calls are one at a time; that two system calls wait for each other's inode locks, or one for its own, is not modelled.
- NameCode.Inodes.Dirlink: link counts and directory sizes are unbounded; the 16-bit fields and a directory that cannot grow are not modelled.
- OpenFiles.FileTable.Open: from `filealloc` on; the path and the modes are not modelled.
- OpenFiles.FileTable.Mmap: after the checks of the arguments.
- OpenFiles.FileTable.Munmap: the dropping of the file reference; the search for the area and the write-back are not modelled.
- ShellCode.Parser.Parseexec: argv is filled by building a new command value; the parser's nodes are values, and only the line buffer is updated in place.
- ShellSyntax.PrintParse: commands of at most MAXARGS - 1 words; more of them are refused by the parser, which `ShellCode.Parser.Parseexec` states.
