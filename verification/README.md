# Verified models of vms, wut and pht

This project models three programs of the repository and proves what they
promise, over every input, every run or every interleaving.

* **vms** simulates a memory system with three-level page tables
  (`vms/src`).  Its two forks are the subject: `vms_fork_copy` copies a whole
  address space, `vms_fork_copy_on_write` copies the tables, shares the data
  pages, and leaves it to `page_fault_handler` to un-share a page when somebody
  writes to it.  The main theorem, `VmsStart.ForksAgree`, says that from a
  well-formed start no program can tell the two apart as long as pages last;
  `VmsMarks.MixedForksAgreeIff` says exactly when a program that mixes them can.
* **wut** is a cooperative thread library (`wut/src/wut.c`): thread table with
  id reuse, first-in-first-out ready queue, blocking join, cancel and exit.
  Every legal call keeps the scheduler invariant, no legal run gets stuck, and
  every join returns the status of the thread that it asked for, each at most once.
* **pht** is a hash table with one lock per bucket and lock-free readers
  (`pht/src/hash-table-v2.c`).  Any interleaving of any number of threads
  linearizes to the sequential table of `pht/src/hash-table-base.c`, and every
  answer is that table's answer to the call that asked.

## How the model is organised

| files | content |
|---|---|
| `VmsState`, `VmsForks`, `VmsWalk` | memory state; forks, fault handler, walk, read and write as functions of it |
| `VmsInvariant`, `VmsSteps`, `VmsForkLeaf`, `VmsForkTree`, `VmsPageCount`, `VmsForkTheorems`, `VmsLazyFork` | ownership and counting invariant; induction over the three nested loops of a fork; what a fork does |
| `VmsMmu`, `VmsAccess` | what the fault handler and the walk do |
| `VmsRuns`, `VmsRefinement`, `VmsReachable` | the abstract machine, refinement over whole runs, what holds in every reachable state |
| `VmsMixed`, `VmsMarks` | runs that mix both forks; the abstract machine with marks |
| `VmsStart`, `VmsSetup` | start states described by memory alone and the main results from them; the start states of the simulator |
| `VmsMachine` | class `Vms`: the same operations in place on arrays, proved equal to the functions |
| `VmsPte` | page-table entries, page numbers and addresses as 64-bit words |
| `WutState`, `WutInvariant`, `WutSteps`, `WutRuns` | the calls as steps; the invariant; whole runs |
| `WutHistory`, `WutRequests` | which status each join returns, over whole runs |
| `WutCancel`, `WutTailq` | cancelling a blocked thread; the ready queue as the linked list of `<sys/queue.h>` |
| `WutCalls` | what each call returns and does, written out |
| `WutLeaks` | which slots of terminated threads can be reused |
| `WutLibrary` | class `Wut`: the calls in place, proved equal to the steps |
| `Common` | types and facts shared by the models |
| `PhtBase`, `PhtV2`, `PhtLinear`, `PhtRuns` | the sequential table (functions and class); the concurrent protocol; each step; whole runs |
| `PhtPrograms`, `PhtAnswers` | which programs get stuck; which call each answer belongs to |

A page is used either as a table of 512 entries or as 4096 bytes, never as both
(`VmsReachable.TablesAreOwned`), so the model keeps the two contents of a page
side by side.  An entry holds a page index in place of its page number;
`VmsPte` shows that the encoding loses nothing.

`Inv` (`VmsInvariant`) is the global invariant of vms.  Its auxiliary state
labels each page with its use and counts, per data page, the copy-on-write forks
that went through it.  It says: the used-page counter is the number of allocated
pages and free pages are zero; every table page sits in exactly one place of one
address space; an entry with the write bit is the only reference to its page
over all address spaces; within one space no page is mapped twice; and
`ref_num` of a data page is its number of references plus its forks, less one
if the fault handler did not make the page.

A *view* of an address space is what a program can observe of it: for each
virtual page the read permission, the write permission (write bit, or a
copy-on-write mark on a counted page) and the bytes.  A mark is *dead*, or its
permission lost, when its page is not counted: the fault handler does not honour it.

## Assumptions

* vms starts from an address space in which the tables are pairwise distinct
  and each data page is mapped once, without copy-on-write marks and with all
  counters zero: `VmsStart.WellFormed`, a condition on memory alone.  The state
  that `vms/src/main.c` builds is one (`VmsSetup.MainWellFormed`).  Programs
  fork, switch to a root that they were given, read and write; accesses stay
  within their page (offset at most 4092).
* wut: `WutInvariant.Legal` lists the calls that the code handles.  An id equal
  to the capacity of the table reads past it, because the guards compare with
  `>` (`wut/src/wut.c:261`, `wut/src/wut.c:293`); a terminated thread is not
  cancelled; a blocked thread is cancelled only while the thread it waits for
  is in the ready queue, the only place searched, and only by the thread that
  followed it in the queue when it blocked; and a join does not close a cycle of
  joins.  `WutCancel.CancelLegalIff` and `WutSteps.JoinSafeIff` show that the
  conditions on blocked targets and on cycles are exact.  A thread function that
  returns is a thread that exits with status 0.
* pht: steps are sequentially consistent and keys do not change.

## Where the code falls short

* After a copy-on-write fork an eager fork is not a faithful copy.  It copies
  the mark of an entry but not the counter of its page, so the new space cannot
  write pages that the old one can, and such a write is fatal.
  `VmsSetup.EagerForkDropsMarks` gives the run,
  `VmsForkTheorems.EagerForkIsDeepCopy` the exact condition: no entry of the
  current space still waits for its copy.
* A copy-on-write fork can change what the current space shows.  It adds 2 to the
  counter of every page that it shares (`vms/src/vms.c:152`), also of a page that the
  current space reaches through a dead mark; the mark is live from then on, and a page
  that was read-only, so that a write to it was fatal, can be written.
  `VmsLazyFork.LazyForkIff` is the exact condition, address by address: the view stays if
  and only if the entry carries no dead mark.  `VmsSetup.LazyForkChangesView` is a run:
  one fork of each kind, a switch to the eager copy, and one more copy-on-write fork.
  `VmsMarks.MixedForksAgreeIff` says what this does to programs: a program that mixes both
  kinds of fork sees what it sees with one kind, if and only if it never comes to a write
  at an address with a dead mark.
* The update path of the concurrent add returns without unlocking
  (`pht/src/hash-table-v2.c:96-99`).  `PhtRuns.HeldAddEnds` is exact under every
  interleaving: an add gives its lock back if and only if the key was not in the
  table.  `PhtRuns.RunDeadlocks` gives the locks that stay taken and the
  deadlocks of every run, both ways: a bucket is locked for ever exactly when
  some key in it has been added twice.  `PhtRuns.ThreeAddsStick` is a deadlock of
  a single thread.  `PhtPrograms.StickIff` gives the programs that can deadlock: two
  of their adds have one key, and a third add to the same bucket does not come before
  either of them in its thread.
* Cancelling a blocked thread removes its entry from the ready queue
  (`wut/src/wut.c:277`), from which `wut_join` has already removed it
  (`wut/src/wut.c:302`).  The entry's links still say that it is the first one,
  so the removal makes the entry that followed it then the first entry now, and
  what stands before that drops out of the queue.  `WutCancel.RunnerIsLost` is a
  run in which the running thread itself is lost, and `WutCancel.CancelUnlinkIff`
  the exact condition under which no harm is done: the running thread is the one
  that followed the target in the queue when the target blocked.  `WutTailq` shows
  on the linked list itself that this is what the macro does.
* Cancelling a thread that its join's target has woken, before it runs again, is handled,
  but the target goes on naming it (`wut/src/wut.c:263-269` clears the names of ready
  threads only).  Every later join on the target is refused (`wut/src/wut.c:293-296`) and
  its slot is never reused.  `WutLeaks.ReusableIff` says which slots of terminated
  threads can still be reused, `WutLeaks.LeakStep` that this is the only call that leaks
  one, and `WutLeaks.SlotIsLost` is a run.
* The comment at `pht/src/hash-table-base.c:111-118` says that a new pair goes
  to the end of its list; the code inserts it at the head, and so does the
  model.
* `vms_page_to_ppn` asserts that a page address is below 2^60, but an entry
  holds only addresses below 2^56 (`VmsPte.PageRoundTrip`).

## Model

| member | source | states |
|---|---|---|
| VmsStart.ForksAgree | vms/src/vms.c:36-158 | from any memory in which every place of every tree has an allocated page of its own, no entry is marked and all counters are zero, any program of forks, switches, reads and writes reads the same values and faults fatally at the same point whether all its forks are copy-on-write or all are eager |
| VmsRefinement.LazyRefinesEager | vms/src/vms.c:36-158 | the same from any state of the global invariant without marks; a run that exhausts the pool agrees with the other up to that point |
| VmsStart.StartInv | vms/src/vms.c:11 | such a memory satisfies the global invariant: the use of each page can be read off the trees |
| VmsRefinement.RunRefines | vms/src/vms.c:36-158 | each kind of run, taken alone, shows what the abstract machine shows, in which a fork duplicates a map from virtual pages to permissions and bytes |
| VmsMarks.MixedForksAgreeIff | vms/src/vms.c:36-158 | from a well-formed start a program that chooses the kind of each of its forks agrees with the run in which all forks are of one kind, up to the shortage of pages, if and only if it never comes to a write at an address with a dead mark; there it is cut off by a fatal fault at which the other run goes on |
| VmsMarks.MixedRunIff | vms/src/vms.c:36-158 | the same against the abstract machine, from any state of the global invariant |
| VmsMarks.MarkedRunRefines | vms/src/vms.c:36-158 | any mixed run from any state of the invariant shows what the abstract machine with marks shows, in which a copy-on-write fork makes every permission but a denied one wait, an eager copy loses the waiting ones, and a write grants its own |
| VmsMarks.MarkedStepSimulates | vms/src/mmu.c:107-202 | the same for one operation |
| VmsMarks.ForkShows | vms/src/vms.c:36-158 | what either fork does to every address of every space: the marks of the current and of the new space as in the abstract machine, nothing else |
| VmsMarks.WriteMark | vms/src/mmu.c:170-182 | a successful write turns the permission at its address into a given one and changes no other mark of any space |
| VmsMarks.ReadChangesNothing | vms/src/mmu.c:190-202 | a successful read leaves the whole memory as it is |
| VmsMarks.LostWriteFatal | vms/src/vms.c:86-88 | a write at an address with a dead mark is fatal, whether or not a page is free |
| VmsMixed.MixedRunRefines | vms/src/vms.c:36-158 | a condition on the forks alone that suffices: a run with both kinds of fork, from a state with backed marks, shows what the abstract machine shows if each eager fork is made from a space without marks |
| VmsMixed.UnmarkedIsNoMarks | vms/src/vms.c:36-78 | that condition, on the addresses of the space, is the one that the invariant speaks of |
| VmsRefinement.StepSimulates | vms/src/mmu.c:107-202 | one fork, switch, read or write of the real memory is one step of the abstract machine and keeps the invariant and the backing of every mark; an eager fork needs the current space free of marks |
| VmsRuns.StoreView | vms/src/mmu.c:180-181 | isolation: a store through a writable leaf changes four bytes of one page of one address space and nothing that any other address or space shows |
| VmsRuns.MappedOutcome | vms/src/mmu.c:170-202 | in every state of the invariant, at a mapped address: a read succeeds if and only if the view is readable, whether or not a page is free; a write runs out of pages if and only if the entry has no write bit, its page is counted twice or more and no page is free, and otherwise succeeds if and only if the view is writable; so a write through a write bit always succeeds |
| VmsRuns.WriteIsSpec | vms/src/mmu.c:170-182 | all outcomes of `vms_write`: success, shortage of pages and a fatal fault exactly as above, the last also at every unmapped address; a success sets exactly the addressed bytes of that view and no other view |
| VmsRuns.ReadIsSpec | vms/src/mmu.c:190-202 | all outcomes of `vms_read`: success exactly on a readable view, shortage of pages exactly on a mapped page that is neither readable nor has the write bit, is counted twice or more, when no page is free, and a fatal fault otherwise; a success returns the word that the view of the current space holds and changes no view of any space |
| VmsRuns.WalkOutcome | vms/src/mmu.c:107-135 | whatever the walk does on the way (it may un-share a page), every view stays as it was, and it ends in a fatal fault only at an address without permissions |
| VmsWalk.Walk | vms/src/mmu.c:107-135 | the retry loop ends within two tries per level, and the entry it finds is a valid entry of the resulting memory |
| VmsAccess.WalkIsLookup | vms/src/mmu.c:107-135 | in every reachable state the retry loop equals a three-level lookup that calls the fault handler at most once, and only on a leaf without permissions |
| VmsWalk.StoreWord | vms/src/mmu.c:180-201 | a word stored at an offset is read back there, and all other bytes of the page stay |
| VmsWalk.WordRoundTrip | vms/src/mmu.c:180-201 | the four bytes of a word give back the word |
| VmsWalk.StoredOrder | vms/src/mmu.c:180-201 | the lowest byte comes first: a stored word read one byte further on has lost its lowest byte |
| VmsForkTheorems.ForkWorks | vms/src/vms.c:36-158 | a fork that passes its guard completes; the new tree mirrors the current one entry by entry (invalid entries stay invalid), every other page keeps its use and bytes, and the invariant holds |
| VmsForkTheorems.LazyForkView | vms/src/vms.c:113-158 | when every mark is backed by a count, as it is in every run without eager forks, after a copy-on-write fork the new space shows what the old one showed and no space shows anything different |
| VmsLazyFork.LazyForkIff | vms/src/vms.c:113-158 | in every state: the new space shows what the current one shows after the fork; the current space shows at an address what it showed before if and only if the entry there carries no dead mark, and otherwise gets write permission back; no other space shows anything different |
| VmsLazyFork.LazyForkSource | vms/src/vms.c:139-152 | the same by marks: mapping, read permission and bytes stay, a given or lost permission becomes a waiting one, and the new space has the same marks |
| VmsLazyFork.LazyForkOthers | vms/src/vms.c:152 | in every other space no view and no mark changes, although the counters of shared pages go up |
| VmsForkTheorems.EagerForkIsDeepCopy | vms/src/vms.c:36-78 | after an eager fork the two spaces have no page in common, no page that existed has changed, and the views are equal if and only if no entry of the source waits for its copy |
| VmsForkTheorems.EagerCell | vms/src/vms.c:62-73 | page by page: an eager copy always has the same mapping, read permission and bytes, and the same write permission exactly when the source page carries no pending mark |
| VmsForkTheorems.GuardLeavesRoom | vms/src/vms.c:37 | half of the pool free is room enough for a copy of any address space |
| VmsForkTheorems.TreePagesAre | vms/src/vms.c:113-155 | the pages for which a fork makes a counterpart are exactly the tables of the space and, for an eager fork, the data pages that its leaves refer to |
| VmsForkTheorems.ApartMeansDisjoint | vms/src/vms.c:36-78 | two address spaces without a common data page have no page in common at all |
| VmsPageCount.TreeSize | vms/src/vms.c:36-158 | counting valid entries along the three loops counts distinct, allocated pages, so the count is at most the used-page counter |
| VmsForkTree.Fork0 | vms/src/vms.c:62-73 | innermost loop of either fork, from any index on: no page shortage, leaves mirrored, all views and the invariant kept |
| VmsForkTree.Fork1 | vms/src/vms.c:52-74 | middle loop of either fork, from any index on: new tables owned by the new space only, subtrees mirrored |
| VmsForkTree.Fork2 | vms/src/vms.c:42-75 | outer loop of either fork, from any index on |
| VmsForkLeaf.ShareKept | vms/src/vms.c:139-152 | sharing one leaf while the source tree is edited in place keeps all views, the counting law and exclusiveness |
| VmsForkLeaf.CopyLeafKept | vms/src/vms.c:62-73 | copying one leaf keeps all views and leaves the new page referenced once |
| VmsSteps.AllocateKeeps | vms/src/pages.c:76-85 | allocation keeps the invariant and hands out a page of zeroes that nothing refers to |
| VmsSteps.AdoptRootKeeps | vms/src/vms.c:118 | a fresh page may become the root of a new, empty address space |
| VmsSteps.AdoptL1Keeps | vms/src/vms.c:124-125 | linking a fresh middle table at an empty entry of a root keeps the invariant |
| VmsSteps.AdoptL0Keeps | vms/src/vms.c:134-135 | linking a fresh lowest table at an empty entry of a middle table keeps the invariant |
| VmsSteps.AdoptLeafKeeps | vms/src/vms.c:67-72 | a leaf pointing at a fresh page with any content keeps the invariant |
| VmsSteps.ShareKeeps | vms/src/vms.c:145-152 | marking both entries and adding 2 to the counter keeps exclusiveness and the exact meaning of the counter |
| VmsSteps.UpgradeKeeps | vms/src/vms.c:89-95 | turning a mark back into write permission at count 1 is safe: no other space refers to the page |
| VmsSteps.UnshareKeeps | vms/src/vms.c:97-109 | moving a leaf to a copy of its page keeps the invariant, with one reference and one count moved |
| VmsInvariant.RefOneMeansSole | vms/src/vms.c:89 | count 1 is reached only when at most one reference is left |
| VmsInvariant.SharedMeansCounted | vms/src/vms.c:152 | a page shared n ways, n at least 2, has a count of at least n |
| VmsInvariant.ViewKept | vms/src/mmu.c:107-149 | a view depends on nothing but the tables of its own tree, the bytes of data pages and whether these are counted |
| VmsMmu.HandleLeaf | vms/src/vms.c:80-111 | the fault handler on a leaf fails only for want of a page, takes one exactly if the entry has no write bit and its page is counted twice or more, changes no view, and leaves the leaf writable exactly if its view was |
| VmsMmu.HandleInner | vms/src/vms.c:80-111 | a fault on an inner entry changes nothing, because tables are never counted |
| VmsMmu.HandlerViews | vms/src/vms.c:80-111 | no address of any space looks different after the handler, and every walk leads to the same entry |
| VmsReachable.ReachableInv | vms/src/vms.c:36-158 | the invariant holds after every run with any mixture of both forks, switches, reads and writes; the fork count of a page has grown by the copy-on-write forks of the run that went through it, and the pages labelled as copies are exactly those that the handler made; without eager forks every mark stays backed by a count of at least 1 |
| VmsReachable.StepKeepsInv | vms/src/vms.c:36-158 | one operation keeps the invariant and the use of every page; a page taken from the pool is a copy exactly if the operation is a read or write; fork counts go up by one exactly for the pages that the new space of a copy-on-write fork maps |
| VmsReachable.WritableIsExclusive | vms/src/vms.c:85-109 | an entry with the write bit is the only valid reference to its page, over all addresses of all spaces |
| VmsReachable.TablesAreOwned | vms/src/vms.c:117-135 | two addresses share a lowest table exactly if they are in the same space and have the same upper indices, and likewise one level up; a table page is never a data page |
| VmsReachable.SlotsAreReached | vms/src/vms.c:139-152 | the references counted by the law of `ref_num` are exactly the leaves that some address of some space reaches |
| VmsReachable.ReferenceLaw | vms/src/vms.c:86-109 | `ref_num` of a mapped page is references plus forks, less one for pages labelled plain; at count 1, once forked, one reference is left |
| VmsStart.RunReferenceLaw | vms/src/vms.c:86-109 | from a well-formed start, after any run, `ref_num` of a mapped page is the number of leaves of all spaces mapped to it plus the number of copy-on-write forks of the run that it went through, less one unless the handler made the page during the run |
| VmsStart.SharersAreSlots | vms/src/vms.c:139-152 | the leaves found by walking all addresses of all spaces are those that the invariant counts |
| VmsReachable.MapsIsRefers | vms/src/vms.c:139-152 | a space maps a page by some address exactly if one of its leaves refers to it |
| VmsReachable.MarkIsCured | vms/src/vms.c:85-109 | after the handler a marked entry is writable if and only if its page is counted; the handler takes a page if and only if that page is counted more than once, and fails if and only if then none is free |
| VmsReachable.ForkNeedsOnlyItsGuard | vms/src/vms.c:37-75 | in every reachable state a fork completes if and only if its guard passes, and adds exactly one page per page of the tree (eager) or per table (copy-on-write) |
| VmsReachable.FreeKeeps | vms/src/pages.c:87-102 | freeing a page that no space uses keeps the invariant |
| VmsReachable.AllocateThenFree | vms/src/pages.c:76-102 | freeing a page just allocated restores the whole memory state; the page was the lowest free one |
| VmsState.NewPage | vms/src/pages.c:76-85 | fails if and only if every page is allocated; otherwise gives the lowest free page and changes nothing else |
| VmsState.LowestFree | vms/src/pages.c:77-83 | the first free index from a given one on, or none if there is none |
| VmsSetup.EmptyPoolInv | vms/src/pages.c:35-69 | the zeroed pool is a well-formed state |
| VmsSetup.MapLeafKeeps | vms/src/main.c:24-28 | mapping a fresh page at an empty entry keeps the invariant |
| VmsSetup.MainStateInv | vms/src/main.c:6-30 | the state that the simulator's main program builds is well-formed, for any virtual address |
| VmsSetup.MainWellFormed | vms/src/main.c:6-30 | that state is a well-formed start, described by memory alone |
| VmsSetup.MainView | vms/src/main.c:14-30 | in that state the address is mapped readable and writable to zero bytes |
| VmsSetup.LazyForkMarks | vms/src/vms.c:146-151 | after a copy-on-write fork an entry of the source waits for its copy if and only if it was writable or marked before, whatever the count of its page |
| VmsSetup.EagerAfterLazy | vms/src/vms.c:62-73 | from any state of the invariant with less than a quarter of the pool in use, an eager fork after a copy-on-write fork makes every page that the view showed writable read-only in the copy, and writing to it is fatal |
| VmsSetup.EagerForkDropsMarks | vms/src/vms.c:62-73 | the concrete run: the main program's state, one fork of each kind, one write |
| VmsSetup.LazyForkRevives | vms/src/vms.c:152 | a copy-on-write fork of a space with a dead mark makes that page writable in it and in the new space |
| VmsSetup.LazyForkChangesView | vms/src/vms.c:113-158 | the concrete run: the main program's state, one fork of each kind, a switch to the eager copy, where a write is fatal, and one more copy-on-write fork, after which both spaces show the page writable |
| VmsSetup.DeadWrite | vms/src/mmu.c:170-179 | with a page free, a write to a page that is mapped but not writable is fatal |
| VmsMachine.Vms.constructor | vms/src/pages.c:14-69 | the pool starts zeroed and empty |
| VmsMachine.Vms.NewPageAt | vms/src/pages.c:76-85 | the scan for a free page, in place, is the lowest-free-page allocation |
| VmsMachine.Vms.FreePageAt | vms/src/pages.c:87-102 | the page is zeroed and released, in place |
| VmsMachine.Vms.ForkCopy | vms/src/vms.c:36-78 | the loops of the eager fork, in place, compute the fork about which the theorems speak |
| VmsMachine.Vms.ForkCopyOnWrite | vms/src/vms.c:113-158 | the loops of the copy-on-write fork, which edit source and copy together, compute the fork about which the theorems speak |
| VmsMachine.Vms.CopyEntry | vms/src/vms.c:63-72 | one pass of the innermost eager loop |
| VmsMachine.Vms.ShareEntry | vms/src/vms.c:140-152 | one pass of the innermost copy-on-write loop: six writes to two entries amount to one marked entry on both sides |
| VmsMachine.Vms.PageFaultHandler | vms/src/vms.c:80-111 | the handler's branches, in place, are those of the specification |
| VmsMachine.Vms.MoveToCopy | vms/src/vms.c:97-109 | the branch of the handler that gives an entry a page of its own, in place |
| VmsMachine.Vms.Mmu | vms/src/mmu.c:107-135 | the loop over level, retry flag and table computes the recursive walk |
| VmsMachine.Vms.VmsRead | vms/src/mmu.c:190-202 | the read, in place, is the read whose outcomes VmsRuns.ReadIsSpec lists |
| VmsMachine.Vms.VmsWrite | vms/src/mmu.c:170-182 | the write, in place, is the write whose outcomes VmsRuns.WriteIsSpec lists |
| VmsMachine.Vms.SetRootPageTable | vms/src/mmu.c:52-55 | only the current root changes |
| VmsPte.PpnRoundTrip | vms/src/pte.c:120-136 | a page number set in an entry is read back if and only if it is below 2^44, and no other bit changes |
| VmsPte.FieldBits | vms/src/pte.c:3-16 | the flags are bits 8, 2, 1 and 0 of the entry, and the page number the 44 bits from bit 10 on |
| VmsPte.FieldsComplete | vms/src/pte.c:12-16 | page number, four flags and the remaining bits determine the entry |
| VmsPte.SetFlagFields | vms/src/pte.c:30-104 | setting a flag changes that field of the entry only |
| VmsPte.ClearFlagFields | vms/src/pte.c:22-96 | clearing a flag changes that field of the entry only |
| VmsPte.CopyFlagFields | vms/src/vms.c:23-33 | the test and the set or clear transfer one flag and leave all other bits |
| VmsPte.EntryCopyFields | vms/src/vms.c:20-34 | `entry_copy` gives the destination the source's flags and the new page number, and leaves the bits that belong to neither |
| VmsPte.PageRoundTrip | vms/src/page_table.c:58-73 | a page address that passes the assertion survives page number, entry and back if and only if it is below 2^56 |
| VmsPte.PoolIndexRoundTrip | vms/src/pages.c:23-29 | pages are 4096 bytes apart from the base of the pool on, and the index of a page, and of any byte in it, is recovered from its address |
| VmsPte.IndicesRebuild | vms/src/page_table.c:21-25 | three level indices and the offset rebuild the low 39 bits of an address |
| VmsPte.IndicesInjective | vms/src/page_table.c:21-25 | two addresses take the same walk to the same byte if and only if their low 39 bits agree |
| VmsPte.IndexSmall | vms/src/page_table.c:21-25 | the index of every level is one of the 512 entries of a table |
| VmsPte.BasePageRoundTrip | vms/src/mmu.c:157-159 | the table is recovered from the address of any of its 512 entries |
| VmsPte.EntriesFillPage | vms/src/page_table.c:35-37 | the 512 entries of a table are 8 bytes apart and fill its page |
| VmsPte.EntryAddressInjective | vms/src/page_table.c:35-37 | two entries have the same address if and only if they are the same entry of the same table |
| VmsPte.TranslateIsOffset | vms/src/mmu.c:144-149 | the or-ed address is page plus offset and stays in the page |
| WutSteps.StepKeeps | wut/src/wut.c:164-357 | every legal call finds a thread to run and keeps the scheduler invariant; the process ends if and only if the last unterminated thread exits; no legal call damages the queue |
| WutSteps.ExitEndsOnlyAtTheEnd | wut/src/wut.c:164-203 | the queue runs empty exactly when every other thread has terminated |
| WutSteps.CreateWorks | wut/src/wut.c:244-257 | create never fails: it takes the least free id, doubles the table when the count has reached the capacity, and leaves every other thread alone |
| WutSteps.CreateKeeps | wut/src/wut.c:108-131 | a created thread joins the tail of the queue, and the invariant holds |
| WutSteps.FullMeansCount | wut/src/wut.c:245 | occupied slots never outnumber the threads created, so a full table means that the count has reached the capacity |
| WutSteps.CancelKeeps | wut/src/wut.c:259-287 | a legal cancel terminates exactly its target with status 128, wakes its joiner, detaches it from the thread it waited for, and takes no other thread off the queue |
| WutSteps.UnblockWorks | wut/src/wut.c:263-269 | the search of the ready queue clears the one thread that names the cancelled thread as its joiner, if there is one, and no other |
| WutCancel.CancelUnlinkIff | wut/src/wut.c:277 | cancelling a blocked thread keeps the scheduler invariant if and only if the running thread is the one that followed the target in the queue when it blocked; otherwise the running thread drops out of the queue although it is alive, or the queue is headed by an entry that is not in it |
| WutCancel.CancelLegalIff | wut/src/wut.c:259-287 | cancelling a thread that has not terminated keeps the scheduler invariant if and only if the cancel is legal: a blocked target must wait for a ready thread and be cancelled by its follower |
| WutCancel.RunnerIsLost | wut/src/wut.c:259-287 | the concrete run: main creates two threads and joins the first, which yields; the second cancels main and is itself no longer in the queue |
| WutLeaks.ReusableIff | wut/src/wut.c:289-323 | some legal run frees the slot of a terminated thread if and only if the thread names no waiter or one that has yet to fetch its status |
| WutLeaks.LeakStep | wut/src/wut.c:259-287 | a legal call makes a slot unusable for ever if and only if it cancels the thread that the slot's thread has woken, before that thread has run; no call mends it |
| WutLeaks.SlotIsLost | wut/src/wut.c:259-296 | the concrete run: main joins thread 1, which exits; thread 2 cancels main; nobody can join thread 1 any more |
| WutCalls.JoinReturns | wut/src/wut.c:289-323 | join returns -1 at once, and changes nothing, if and only if the id is out of range, its slot is empty, it is the caller, or its thread has a waiter; for any other terminated thread it returns that thread's status, the one recorded as delivered, and frees the slot; any other live thread blocks the caller |
| WutCalls.CancelRefusesIff | wut/src/wut.c:261 | cancel returns -1, and changes nothing, if and only if the id is out of range, its slot is empty, or it is the caller |
| WutCalls.CancelReturns | wut/src/wut.c:259-287 | any other ready thread is cancelled: the call returns 0, the thread is off the queue with status 128, its joiner is ready at the tail of the queue, and no other thread changes |
| WutCalls.CancelThenJoin | wut/src/wut.c:278-297 | joining a thread that was cancelled while nobody waited for it returns 128 |
| WutCalls.YieldReturns | wut/src/wut.c:325-339 | yield returns -1, and changes nothing, if and only if no other thread is ready; otherwise the caller goes to the tail of the queue |
| WutTailq.StaleRemoveIff | wut/src/wut.c:277 | on the linked list: removing an entry that was already taken off the front changes nothing if and only if the entry that followed it is the first one again |
| WutTailq.StaleRemoveDrops | wut/src/wut.c:277 | if the entry that followed it is further down, the list is cut to begin there |
| WutTailq.CancelListIs | wut/src/wut.c:259-287 | also for a cancel that is not legal the model's queue is what the macros make of the list |
| WutTailq.InsertTailIs | wut/src/wut.c:145-152 | inserting at the tail appends the entry, with all links in agreement |
| WutTailq.RemoveIs | wut/src/wut.c:190 | removing an entry of the list takes out that entry only, leaves all links in agreement, and leaves the links of entries off the list alone |
| WutTailq.StepLinks | wut/src/wut.c:164-357 | every legal call, macro by macro, keeps the linked list equal to the queue of the model, and the links of each blocked thread as it left them; the process ends on an empty list |
| WutTailq.RunLinks | wut/src/wut.c:164-357 | the same over every legal run |
| WutTailq.InitLinks | wut/src/wut.c:228-230 | the initial list holds the main thread's entry only |
| WutSteps.JoinSafeIff | wut/src/wut.c:300-304 | after a blocking join every thread still leads to a ready one if and only if the target did not itself wait, through any chain, for the joining thread |
| WutSteps.CycleNeverEnds | wut/src/wut.c:300-304 | a closed cycle of joins leads to no ready thread |
| WutSteps.JoinBlockWorks | wut/src/wut.c:300-312 | a legal blocking join always finds a next thread |
| WutSteps.JoinKeeps | wut/src/wut.c:289-323 | join keeps the invariant on its refused, immediate and blocking paths |
| WutSteps.YieldKeeps | wut/src/wut.c:325-339 | yield keeps the invariant |
| WutSteps.ResumeKeeps | wut/src/wut.c:312-322 | a thread resumed inside a join finds its target terminated, frees its slot, and the invariant holds again |
| WutSteps.FinishKeeps | wut/src/wut.c:164-190 | exit and scheduler terminate exactly the running thread, with its status masked to 0..255, and move its joiner to the tail |
| WutSteps.InitInv | wut/src/wut.c:206-237 | the initial state has ten slots, the main thread alone in the queue, and satisfies the invariant |
| WutInvariant.LeadsUnique | wut/src/wut.c:300-301 | the end and the length of a chain of joins are determined by its first thread |
| WutState.MinAvailable | wut/src/wut.c:92-97 | the least free id, or -1 if and only if there is none |
| WutRuns.RunNeverSticks | wut/src/wut.c:164-357 | after any legal run that has not ended the process, the queue holds exactly the threads that can run, it is not empty, and every waiting thread leads through joins to one in it |
| WutHistory.StatusesDeliveredOnce | wut/src/wut.c:271-357 | over any legal run each status that a join returns is the one with which its target terminated, and no thread's status is returned twice |
| WutRequests.RunMatched | wut/src/wut.c:289-323 | over any legal run the n-th status returned to a thread is that of the n-th thread it asked for, the one that had the given id when the join was called, whatever becomes of ids while it waits |
| WutRequests.JoinsReturnTheirStatus | wut/src/wut.c:206-357 | from the start of the library on both hold: right thread, right status, at most once |
| WutRequests.StepAsked | wut/src/wut.c:289-323 | one call keeps each live thread given all it asked for, but for the join in which it still waits, which still names the same thread |
| WutHistory.StepHistory | wut/src/wut.c:271-357 | one call keeps the table in agreement with the statuses recorded and delivered so far |
| WutHistory.InitHistory | wut/src/wut.c:206-237 | the empty history agrees with the initial state |
| WutRuns.WokenSlotIsSafe | wut/src/wut.c:312-322 | between wake-up and resumption of a joiner no call frees or reuses the slot of its target, and a second join on it is refused |
| WutRuns.QueueMoves | wut/src/wut.c:178-190 | apart from cancels, a call either only appends to the ready queue or drops its head and appends |
| WutRuns.FirstInFirstOut | wut/src/wut.c:325-339 | without cancels, a thread at position k of the queue runs after exactly k switches |
| WutLibrary.Wut.constructor | wut/src/wut.c:206-237 | ten slots, the main thread running in slot 0 |
| WutLibrary.Wut.ThreadsExpand | wut/src/wut.c:81-90 | the table doubles, old slots stay, new slots are empty |
| WutLibrary.Wut.MinAvailableId | wut/src/wut.c:92-97 | the loop finds the least free id |
| WutLibrary.Wut.WutCreate | wut/src/wut.c:244-257 | create, in place, is the create step and never ends the process |
| WutLibrary.Wut.WutCancel | wut/src/wut.c:259-287 | cancel of any thread that has not terminated, legal or not, in place, with its loop over the queue, is the cancel step, and reports exactly when that leaves no proper queue; WutCalls.CancelReturns says what the step does |
| WutLibrary.Wut.UnlinkEntry | wut/src/wut.c:277 | the removal of a cancel, in place, cuts the queue as the list macro does, or fails if and only if that leaves no proper queue |
| WutLibrary.Wut.WutJoin | wut/src/wut.c:289-323 | join, in place, is the join step, also when it closes a cycle of joins, as long as another thread is ready to run; WutCalls.JoinReturns says what the step returns |
| WutLibrary.Wut.WutYield | wut/src/wut.c:325-339 | yield, in place, is the yield step |
| WutLibrary.Wut.WutExit | wut/src/wut.c:345-357 | exit and the scheduler, in place, are the exit step |
| PhtBase.AddIsMapUpdate | pht/src/hash-table-base.c:119-149 | the table is a map: an add sets its own key and leaves the presence and value of every other key alone |
| PhtBase.AddKeepsPlaces | pht/src/hash-table-base.c:119-136 | each key stays in its own bucket and occurs once |
| PhtBase.AddAllContains | pht/src/hash-table-base.c:103-136 | a key is in the table if and only if it has been added |
| PhtBase.AddAllPlaced | pht/src/hash-table-base.c:119-136 | after any adds each key occurs once and in its own bucket |
| PhtBase.HashIsNumber | pht/src/hash-table-common.c:6-19 | the hash is the number whose digits to the base 33 are the characters, modulo 2^32 |
| PhtBase.BernsteinHash | pht/src/hash-table-common.c:6-19 | the loop over the characters computes it |
| PhtBase.FindIn | pht/src/hash-table-base.c:85-97 | the first pair with the key, or the end of the list if there is none |
| PhtBase.HashTableBase.ListEntry | pht/src/hash-table-base.c:85-97 | the loop over the list finds the first pair with the key |
| PhtBase.HashTableBase.Add | pht/src/hash-table-base.c:119-136 | the add, in place |
| PhtBase.HashTableBase.ContainsKey | pht/src/hash-table-base.c:103-109 | true if and only if the key is in the table |
| PhtBase.HashTableBase.Value | pht/src/hash-table-base.c:142-149 | the value of a key, or failure if and only if it is absent |
| PhtLinear.StepKeeps | pht/src/hash-table-v2.c:75-118 | every step of every thread keeps the lists equal to the sequential table after the adds logged so far, and every answer right |
| PhtLinear.MakeKeeps | pht/src/hash-table-v2.c:101-105 | a node made but not yet linked is invisible to all other threads |
| PhtLinear.StoreKeeps | pht/src/hash-table-v2.c:96-98 | an update takes effect at its store, for all readers at once |
| PhtLinear.PublishKeeps | pht/src/hash-table-v2.c:105 | an insert takes effect when its node is linked |
| PhtLinear.ReadKeeps | pht/src/hash-table-v2.c:75-118 | every step of a reader keeps what it carries along true: the presence of its key at the read of the list head, and for get_value the node that holds the value; an answer agrees with both |
| PhtLinear.FindIsFindIn | pht/src/hash-table-v2.c:60-73 | walking the linked nodes finds the key exactly if the list has it, and at the first occurrence |
| PhtAnswers.RunAnswers | pht/src/hash-table-v2.c:75-118 | after any run each answer of a reader was given by one call of the programs, a different one each, for that call's key: contains answers whether the sequential table had the key when the call began; get_value gives the table's value at its last step if the table had the key when the call began, and fails its assertion if not; and each reader call that has ended has its answer |
| PhtAnswers.HistoryAnswers | pht/src/hash-table-v2.c:75-118 | the same for the list of states of a run, with the steps at which each call began and ended |
| PhtRuns.RunLinearizes | pht/src/hash-table-v2.c:75-118 | after any interleaving the lists are the buckets of the sequential table after some order of exactly the adds carried out, each key once and in its bucket, and every answer agrees with the table contents recorded with it (which PhtAnswers.RunAnswers ties to calls and steps) |
| PhtRuns.RunConserves | pht/src/hash-table-v2.c:84-108 | over any run no add is lost or carried out twice |
| PhtRuns.AddsConserved | pht/src/hash-table-v2.c:84-108 | one step moves an add from the pending ones to the completed ones, or none |
| PhtRuns.StartInv | pht/src/hash-table-v2.c:27-39 | the empty table satisfies the invariant, and no lock is left taken |
| PhtRuns.StoreLeaks | pht/src/hash-table-v2.c:96-99 | an update leaves the lock of its bucket with no thread that will release it, and happens only for a key added before |
| PhtRuns.LeakedForever | pht/src/hash-table-v2.c:41-49 | no step of any thread ever releases such a lock |
| PhtRuns.WaitsForEver | pht/src/hash-table-v2.c:90 | an add that waits for such a lock waits in every continuation of the run |
| PhtRuns.AddReleasesIff | pht/src/hash-table-v2.c:84-108 | an add can always be run to its end, and run alone it gives its lock back if and only if the key was not in the table before |
| PhtRuns.HeldAddEnds | pht/src/hash-table-v2.c:84-108 | under every interleaving, once an add has ended its thread still owns the bucket's lock if and only if the key was in the table when the lock was taken |
| PhtRuns.RunDeadlocks | pht/src/hash-table-v2.c:90-99 | in every state of every run a bucket is locked for ever if and only if some key in it has been added twice, and no thread can move if and only if each has finished or waits to add to such a bucket |
| PhtRuns.StuckIff | pht/src/hash-table-v2.c:90-99 | the same for one state: the exact deadlocks |
| PhtRuns.OwnersKept | pht/src/hash-table-v2.c:84-108 | every step keeps the locks that stay taken equal to the buckets with a repeated key |
| PhtRuns.StuckMeansUpdated | pht/src/hash-table-v2.c:90-99 | one direction: each unfinished thread of a state without moves waits to add to a bucket in which some key has been added twice |
| PhtPrograms.StickIff | pht/src/hash-table-v2.c:84-108 | a program without get_value has a schedule that ends with calls unfinished if and only if it has two adds of one key and a third add to their bucket that does not come before either of them in its thread |
| PhtPrograms.StuckNeedsThird | pht/src/hash-table-v2.c:84-108 | one direction, for every program: a run that no step can continue, with calls unfinished and no assertion failed, needs such a third add |
| PhtPrograms.ThirdSticks | pht/src/hash-table-v2.c:90-99 | the other, for every program: with such a third add some maximal run leaves calls unfinished or fails the assertion of get_value |
| PhtPrograms.RunTraced | pht/src/hash-table-v2.c:84-108 | after any run each logged add was made by one call of the programs, a different one each, and each add that is past is in the log |
| PhtRuns.DistinctKeysFinish | pht/src/hash-table-v2.c:84-108 | if no key is added twice, a run that cannot go on has finished every call, or get_value has failed its assertion on a key that was absent at its head read |
| PhtRuns.RunsEnd | pht/src/hash-table-v2.c:75-118 | every run is bounded by a budget fixed at its start, so all loops of all threads end |
| PhtRuns.ThreeAddsStick | pht/src/hash-table-v2.c:96-99 | the concrete deadlock: one thread that adds one key three times |

## Left out

- Output and process exit in vms: `printf`, `perror`, the dump of a fatal fault and the exit code; the two exits are two outcomes, and the exit of a fork's guard counts as running out of pages.
- The memory of a process that exits in the middle of a fork.
- `mmap` and `sysconf`: the pool starts as zeroed pages.
- The table view and the byte view of one page as the same memory: a page keeps both contents side by side, and a program that maps a table page as data is not modelled.
- Accesses that cross the end of a page: `vms/src/mmu.c:180-181` writes four bytes at any offset.
- Freeing a mapped page during a run: `vms_free_page` does not reset `ref_num`.
- The width of `ref_num` and of `threads_count`: both are unbounded integers.
- Writes to a page-table entry through its address: VmsPte has the set and clear functions as functions of the word, and the class writes whole entries.
- Bits of an entry outside page number and the four flags, in the runs (VmsPte shows that they are never touched).
- The three nested loops of each fork as one method: VmsMachine has one method per level.
- VmsRefinement.LazyRefinesEager: compares runs that use one kind of fork throughout; for mixed forks the equality is false in general (VmsSetup.EagerForkDropsMarks), and VmsMarks.MixedForksAgreeIff gives the exact condition.
- VmsForkTheorems.LazyForkView: requires every mark to be backed by a count, because it is false otherwise (VmsSetup.LazyForkChangesView); VmsLazyFork.LazyForkIff holds without.
- PhtPrograms.StickIff: speaks of programs without get_value, because a failed assertion of get_value ends the process before an add can wait; PhtPrograms.StuckNeedsThird and PhtPrograms.ThirdSticks speak of all programs.
- That copy-on-write forks use no more pages than eager ones: the code adds 2 to a counter at every fork, so that repeated forks may cost an extra copy.
- WutSteps.StepKeeps: covers legal calls only; cancelling a terminated thread, an id equal to the capacity, cancelling a blocked thread whose target is not ready or by another thread than its follower, and a join that closes a cycle are not handled by the code.
- What the scheduler does after a cancel has left the queue headed by an entry that was not in it.
- Thread records of wut as heap objects: a slot holds its record and the queue holds ids; the links of the queue's entries are modelled in WutTailq, by value.
- `ucontext`, stacks, Valgrind and debug printing in wut: a switch is the choice of the new head and the completion of its pending join.
- Exhaustion of memory in wut and pht.
- The linked nodes of the sequential table of pht: a bucket is a sequence of pairs (the concurrent table has nodes and links).
- The fields of a new list node being filled in one by one in pht: a node can be seen only once it is linked, so making it is one step.
- Weak memory and the internals of mutexes in pht: a lock is an owner, and steps interleave.
- Destruction of the tables, the table with one lock (`pht/src/hash-table-v1.c`), the timing program, and negative characters in the hash: a character counts as its code.
- `ssp` and `tps`: process plumbing with little logic of its own.
