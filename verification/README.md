# The board allocation stack of spalloc_server

This project models how spalloc_server shares out the boards of SpiNNaker machines, and proves that it does so
safely: from the tree that packs rectangles, through the allocator and the job queue, to the controller that
switches the boards on and off and the worker threads that carry out its commands.

Each layer has a specification on values (the modules whose names end in `Model`), theorems about it, and, where the
program changes objects in place, a class whose methods are proved to do exactly what the specification says.

| files | layer |
|---|---|
| `Coordinates.dfy`, `AreaToRect.dfy` | the hexagonal torus of boards; choosing the sides of a rectangle |
| `PackTreeModel.dfy`, `PackTree.dfy` | the guillotine-split packing tree, as a value and as linked objects |
| `CandidateFilter.dfy` | the search for connected working boards in a rectangle, and the links around them |
| `AllocatorModel.dfy`, `Allocator.dfy`, `AllocatorTheorems.dfy`, `Oracle.dfy` | blocks, single boards, quarantine; whole runs; "could this ever be allocated?" |
| `JobQueueModel.dfy`, `JobQueue.dfy`, `JobQueueTheorems.dfy` | jobs queued on many machines at once |
| `ControllerModel.dfy`, `Controller.dfy`, `ControllerTheorems.dfy` | the life-cycle of jobs and the commands sent to the hardware |
| `ServerTheorems.dfy` | job queue and controller together |
| `BmpWorker.dfy` | the thread that carries out one frame's commands |

## Main results

* **Disjointness over whole runs** (`WholeRunDisjoint`): whatever is allocated, freed and checked, the boards that are
  live or in quarantine are pairwise disjoint, work, and lie in the machine. Freed boards are kept back for the whole
  quarantine, counted from the time of the free, and no longer (`FreedBoardsWait`, `FreedBoardsReturn`), and when
  everything is back the allocator is as new (`EverythingComesBack`).
* **What is granted, exactly** (`BlockGrantedExactly`, `BoardGrantedExactly`), in terms of the free leaves and of limits on
  faults that say what a fault is (`LimitsExactly`), and what free space is left (`AllocLeaves`, `RequestLeaves`).
* **Exact search and exact undo** in the packing tree (`AllocRefuses`, `AllocThenFree`, `FreeAllCollapses`), for the
  linked objects as well, since each of their methods is equated with the specification.
* **The oracle** agrees with the allocator on an idle machine for blocks, counts and particular boards (`OracleExact`).
  For an unspecified board it does not: it counts dead boards, while the allocator tries the corner triads only.
  `AnyBoardOracleExact` says exactly when it is right, `AnyBoardOracleCanBeWrong` gives a machine where it is not.
* **Progress** (`IdleMachineHasNoQueue`): after processing, an idle machine has an empty queue; the one exception is
  the case above, and it is real (`IdleMachineCanStarve`). A waiting job is in the queue of every machine that could
  serve it, behind a job just refused, unless it is stranded (`WaitsForARefusal`), which the next point is about.
* **Order of service, exactly** (`NoOvertaking`, `OvertakesExactly`), over the whole history of a queue, across suspension,
  rebuilding, and machines coming and going: no machine was ever given a job while an earlier job waited that it could
  have served, whatever the two asked for, unless a rebuild of the queues had broken off and left the earlier job out.
  That does happen: `OvertakingHappens` is a run, and `MissingAfterBreak` says which jobs are left out.
* **Jobs go where they ask to** (`QueuedWhereAsked`, `StartedWhereAsked`): to the machine they name or else to those with all
  their tags.
* **Rebuilding the queues can break off**: exactly when `RegenerateQueues` says, because the dictionary of jobs is
  changed while it is gone over (`RebuildCanBreakOff`) or because a machine raises an error about a job, which then
  happens in every later rebuild (`ErrorStays`, `TorusOfOneBoardStays`).
* **Safety of the queue**, which does not depend on the order of service and so outlives such a failure: one callback
  each (`ToldOnce`), jobs and allocations one to one (`OneJobPerAllocation`), no shared boards (`JobsShareNoBoards`), and
  running jobs undisturbed (`TenantsStay`).
* **Quiescence before reuse** (`BoardsComeQuiet`): controller and queue, taken together, always agree on who has which
  boards (`KnownAlike`), whatever the queue does (`QueueAtWork`) and whichever jobs it refuses, and boards are given to a
  job only when nobody holds them and no command that is queued or being carried out acts on them. They went back only
  when the last command for each frame was to power off (`PowerOffBeforeReturn`); a power-off that fails is not
  repeated, so a board is known to be off if and only if it succeeded (`FailedPowerOffGivesBack`).
* **Isolation** (`JobsAreIsolated`, `AllocationSwitchesOn`), from the request of a user to the hardware: a live job that is ready
  and powered on has all its boards on, and every link from them to boards of others is disabled.
* **Boards come back** once all commands have ended (`CommandsRunOut`, `AllBoardsComeBack`), provided that the
  controller still remembers the destroyed job: with a fixed limit, if and only if fewer jobs than the limit have been
  destroyed after it (`ReturnedIfFewDestroyed`). Otherwise they never do (`ForgottenKeepsBoards`), and
  `BoardsNeverComeBack` is a run in which that happens.
* **The worker** loses no wake-up, completes requests in order and once each, and stops only when empty, in every
  interleaving (`NoLostWakeUp`, `FifoOnce`, `StopsEmpty`, `Delivers`); and retrying a request that broke off half-way
  leaves the hardware as one good attempt does (`RetryIsHarmless`).

## How to read the model

* The clock is a parameter of each call; one call sees one time. Nothing assumes that it never goes back, except
  `CheckFreeExact` and `QuarantineInOrder`, which say so.
* Errors raised by the program are values: `None`, `false`, or a member of a result type.
* Choices the program leaves to the order of a Python set or dictionary are left open: any unused board of any opened
  triad may be given, and the frames of a job may be dealt with in any order.
* Jobs are known by serial numbers in the order of their creation, standing for object identity; `jobs` is the ordered
  dictionary of jobs, `all` also has those that have left it, for the history.
* The callbacks made by the queue are recorded in its `log`. They do not call back into the queue. With each allocation
  the log keeps the machine and which jobs were stranded then, that is, left out of all queues by the last rebuild.
* `Base` is the safety of the queue's bookkeeping, `Orderly` adds that the history is in order, and `Sound`, which every
  method of the class keeps, that the queues miss none but stranded jobs.
* An allocator's `ledger` is a specification-only record of the rectangle and boards behind each holding that is live
  or in quarantine; the invariant ties it to the tree, the pools and the lookups.
* The controller's actions are atomic, as they are under its lock. In `ControllerModel` the job queue and the hardware are
  its environment, and each frame completes its commands in order, which `FifoOnce` shows of its worker; in
  `ServerTheorems` the job queue is the one of `JobQueueModel`.
* `destroyed`, `done`, `lit` and `wired` in the controller's state are kept for the specification only: the order of
  destruction, what was last completed for each job and frame and whether it succeeded, which boards are known to be on
  or off, and which links are known to be enabled or disabled. What a failed command may have touched is not known.
* Where the code and its documentation differ, the model follows the code: the ratio asked of `area_to_rect` may be
  missed by rounding (`RatioCanBeMissed`, `RatioMissedExactly`), and the oracle is not always conservative for single boards.

## Model

| member | source | states |
|---|---|---|
| Coordinates.OppositeIsThreeFurther | spalloc_server/links.py:98-102 | the opposite of a link is three further round the hexagon |
| Coordinates.VectorReverses | spalloc_server/coordinates.py:137-156 | the second half of the vector table is the reverse of the first: the opposite link at the far end has the negated vector |
| Coordinates.RingIsModulo | spalloc_server/coordinates.py:181-185 | going round a ring of n positions, in which the model reduces coordinates, is the remainder modulo n |
| Coordinates.LinkThereAndBack | spalloc_server/coordinates.py:159-192 | on a torus of any size, following a link and then its opposite returns to the start, and wraps in the same way both times |
| Coordinates.LinkInjective | spalloc_server/coordinates.py:159-192 | no two boards share a neighbour in the same direction |
| Coordinates.TriadNeighbours | spalloc_server/coordinates.py:38-80 | the boards of a triad, and of the next triads along x and y, lie as in the drawings |
| Coordinates.WrapsExactly | spalloc_server/coordinates.py:179-190 | a link is said to wrap along x, or y, exactly when its vector leads out of the machine in that direction |
| Coordinates.HexagonCloses | spalloc_server/coordinates.py:159-192 | north after east and east after north both lead where north-east leads, for every width and height |
| Coordinates.LinkMovesChipByVector | spalloc_server/coordinates.py:195-221 | following a link moves a board's corner chip by a displacement that depends on the link alone, modulo 12 chips per triad of the machine |
| Coordinates.ChipsOfMachine | spalloc_server/coordinates.py:195-221 | board (0, 0, 0) is at chip (0, 0), and the boards of a machine are at different chips, all of the machine |
| AreaToRect.SquarestRectangle | spalloc_server/area_to_rect.py:99-125 | the downward search over divisors stops at the specified rectangle, and returns (0, 0) for an empty area |
| AreaToRect.SquarestIsSquarest | spalloc_server/area_to_rect.py:99-125 | that rectangle has exactly the area, is landscape, and no other factorisation is less elongated |
| AreaToRect.WithRatioCovers | spalloc_server/area_to_rect.py:128-172 | the rectangle for a ratio covers the area, is landscape, and misses the ratio by less than one unit of width |
| AreaToRect.RectangleWithAspectRatio | spalloc_server/area_to_rect.py:152-172 | the straight-line computation gives the specified rectangle, including for an empty area |
| AreaToRect.AreaToRect | spalloc_server/area_to_rect.py:49-96 | the method follows the specification through every branch, including both errors |
| AreaToRect.RectForFits | spalloc_server/area_to_rect.py:66-96 | any rectangle returned lies within the bounds and covers the area |
| AreaToRect.RectForRatio | spalloc_server/area_to_rect.py:66-96 | any rectangle returned misses the required ratio by less than one unit of its longer side |
| AreaToRect.RectForSnug | spalloc_server/area_to_rect.py:63-96 | no rectangle is larger than need be: neither side could be one shorter, or it is the least square, or it has been squeezed into the bounds and its other side could not be one shorter; it lies across the bounds unless squeezed |
| AreaToRect.RectForExact | spalloc_server/area_to_rect.py:63-86 | if an exact factorisation has the ratio and the squarest one fits across the bounds, that is what is found |
| AreaToRect.RectForErrors | spalloc_server/area_to_rect.py:49-58 | an error means a meaningless argument; an area larger than the bounds is no error but cannot be met |
| AreaToRect.RectForImpossible | spalloc_server/area_to_rect.py:55-97 | nothing is found if and only if the area exceeds the bounds, or the ideal rectangle does not fit and misses the ratio once squeezed |
| AreaToRect.LandscapeExactly | spalloc_server/area_to_rect.py:60-61 | a ratio above one stands for its inverse |
| AreaToRect.RectForAnyShape | spalloc_server/area_to_rect.py:55-96 | with ratio 0 a rectangle is found if and only if the area does not exceed the bounds |
| AreaToRect.RatioMissedExactly | spalloc_server/area_to_rect.py:63-96 | exactly when the rectangle found misses the required ratio: no exact factorisation meets it, the turned ideal rectangle fits the bounds, and the rounded-up height is less than the ratio times the rounded-up width |
| AreaToRect.SquarestDecides | spalloc_server/area_to_rect.py:66-75 | the squarest factorisation meets a ratio if and only if some exact factorisation does |
| AreaToRect.RatioCanBeMissed | spalloc_server/area_to_rect.py:32-39 | the documented ratio is not always met: area 5 with ratio 0.75 gives 3 by 2 |
| PackTreeModel.LeavesPartition | spalloc_server/pack_tree.py:25-57 | every point of the root lies in exactly one leaf, and no other point does |
| PackTreeModel.LeavesApart | spalloc_server/pack_tree.py:25-57 | two different leaves never overlap |
| PackTreeModel.FindAcceptableExact | spalloc_server/pack_tree.py:107-119 | the search fails if and only if the filter rejects every corner placement, and otherwise returns an accepted corner |
| PackTreeModel.AllocGrants | spalloc_server/pack_tree.py:149-286 | a successful allocation adds exactly one allocated leaf: of the size wanted, or of the area and ratio and no larger than need be, a corner of a former free leaf, and accepted by the filter; the tree stays well formed and canonical and all other allocated leaves stay |
| PackTreeModel.AllocLeaves | spalloc_server/pack_tree.py:184-218 | of the free leaf that an allocation uses, the deeper of the two strips beside and above or below the corner stays whole as one free leaf, and at most one other is made; all other free leaves stay |
| PackTreeModel.RemainsExactly | spalloc_server/pack_tree.py:184-218 | the strip, the other piece and the corner taken cover that leaf exactly, none twice |
| PackTreeModel.RoomForAnother | spalloc_server/pack_tree.py:184-218 | on a 3 by 2 machine a 1 by 1 block leaves room for a 2 by 2 block |
| PackTreeModel.LowestLeftmost | spalloc_server/pack_tree.py:107-119 | of the corners that the filter accepts the leftmost is taken, and of those the lowest |
| PackTreeModel.SmallerPartServes | spalloc_server/pack_tree.py:160-175 | of the two parts of a node that could both serve, the one of smaller area does, and the first if they are equal |
| PackTreeModel.AllocRefuses | spalloc_server/pack_tree.py:149-286 | an allocation is refused if and only if no free leaf anywhere has an acceptable corner, in spite of the early cut-offs |
| PackTreeModel.UnfilteredSucceeds | spalloc_server/pack_tree.py:253-286 | without a filter, an allocation by size succeeds if and only if some free leaf is large enough, and one by area with ratio 0 if and only if some free leaf has the area |
| PackTreeModel.RequestExact | spalloc_server/pack_tree.py:303-353 | a cell can be requested if and only if the leaf holding it is free; then exactly that 1x1 leaf is added to the allocated ones |
| PackTreeModel.RequestLeaves | spalloc_server/pack_tree.py:319-353 | a request leaves of the free leaf that holds the cell the deepest strip beside the cell whole, then that of the rest, and so on; all other free leaves stay |
| PackTreeModel.FreeExact | spalloc_server/pack_tree.py:365-387 | freeing succeeds if and only if an allocated leaf has its corner there; that leaf alone becomes free and the tree stays canonical |
| PackTreeModel.EmptyCollapses | spalloc_server/pack_tree.py:378-383 | a canonical tree with nothing allocated is one free leaf |
| PackTreeModel.AllocThenFree | spalloc_server/pack_tree.py:177-218 | freeing what was just allocated restores the identical tree |
| PackTreeModel.RequestThenFree | spalloc_server/pack_tree.py:319-353 | freeing a cell that was just requested restores the identical tree |
| PackTreeModel.FreeAllCollapses | spalloc_server/pack_tree.py:365-383 | freeing all allocated leaves in any order leaves a single free leaf |
| PackTreeClass.PackTree.constructor | spalloc_server/pack_tree.py:36-57 | a new tree is one free leaf |
| PackTreeClass.PackTree.HSplit | spalloc_server/pack_tree.py:65-83 | the leaf gets a lower and an upper free half |
| PackTreeClass.PackTree.VSplit | spalloc_server/pack_tree.py:85-105 | the leaf gets a left and a right free half |
| PackTreeClass.PackTree.FindAcceptable | spalloc_server/pack_tree.py:107-119 | trying each corner once gives the first accepted one, whose description the filter then holds |
| PackTreeClass.PackTree.AllocCorner | spalloc_server/pack_tree.py:177-218 | at most two splits cut the wanted corner out of the leaf, along the axis that keeps the largest free space |
| PackTreeClass.PackTree.Alloc | spalloc_server/pack_tree.py:121-218 | the mutable tree changes, and answers, as the specification says; on success the filter describes the rectangle taken |
| PackTreeClass.PackTree.AllocArea | spalloc_server/pack_tree.py:220-286 | the same for an allocation by area |
| PackTreeClass.PackTree.Request | spalloc_server/pack_tree.py:288-353 | the same for one particular cell |
| PackTreeClass.PackTree.Free | spalloc_server/pack_tree.py:355-387 | the same for freeing, with false for the error raised |
| CandidateFilter.EnumerateBoards | spalloc_server/allocator.py:955-992 | the breadth-first search terminates with exactly the working boards reachable from the bottom-left board over working links inside the rectangle |
| CandidateFilter.RegionHoldsStart | spalloc_server/allocator.py:963-992 | the region is empty if the bottom-left board is dead, and otherwise contains it; it holds no dead board and nothing outside the rectangle |
| CandidateFilter.RegionIsLeastClosed | spalloc_server/allocator.py:963-992 | the region is closed under links that are not dead to boards of the rectangle that are not dead, and is the least such set with the bottom-left board |
| CandidateFilter.ClassifyLinks | spalloc_server/allocator.py:994-1052 | the loops sort all links of the boards into the five classes and find which wrap-arounds join boards of the set |
| CandidateFilter.ClassesPartition | spalloc_server/allocator.py:1025-1052 | every link of every board is in exactly one class |
| CandidateFilter.ClassesExactly | spalloc_server/allocator.py:1025-1052 | what each of the five classes means: whether the link leaves the set, wraps, and is listed as dead |
| CandidateFilter.LimitsExactly | spalloc_server/allocator.py:1064-1089 | a candidate is accepted if and only if its region is not empty, misses no more boards than allowed, has no more links listed as dead inside than allowed, and has a wrap-around link if a torus is required |
| CandidateFilter.FaultlessNotRefused | spalloc_server/allocator.py:1081-1087 | a candidate none of whose links is listed as dead is never refused for a limit on dead links |
| CandidateFilter.PeripheryLeaves | spalloc_server/allocator.py:1017-1019 | the periphery is exactly the links that leave the set |
| CandidateFilter.InternalLinksPairUp | spalloc_server/allocator.py:1032-1049 | a link between two boards of the set is internal from both ends, and wraps from both or neither |
| CandidateFilter.CandidateFilter.Call | spalloc_server/allocator.py:1054-1094 | a candidate is accepted if and only if its region is not empty and within the limits on dead boards, dead links and torus links; only then are the attributes set, and to those of that candidate |
| AllocatorModel.GrantBlockKeeps | spalloc_server/allocator.py:273-280 | allocating a block keeps the allocator's invariant |
| AllocatorModel.TakeBoardKeeps | spalloc_server/allocator.py:547-577 | taking an unused board of an opened triad keeps the invariant, also just after opening the triad |
| AllocatorModel.ReleaseKeeps | spalloc_server/allocator.py:807-818 | moving an allocation to the quarantine keeps the invariant |
| AllocatorModel.FreeNextKeeps | spalloc_server/allocator.py:834-858 | really freeing the oldest entry always succeeds and keeps the invariant |
| AllocatorModel.OutcomeKeeps | spalloc_server/allocator.py:796-805 | every outcome of an allocation keeps the invariant, and a success adds one holding with the boards returned |
| AllocatorTheorems.GrantsDisjoint | spalloc_server/allocator.py:262-280 | allocations that are live or in quarantine never share a board, also single boards of one triad |
| AllocatorTheorems.GrantsInMachine | spalloc_server/allocator.py:262-280 | every board held works and lies in the machine |
| AllocatorTheorems.NewGrantAvoidsHeld | spalloc_server/allocator.py:796-805 | the boards returned by an allocation are not empty and disjoint from all that is still held |
| AllocatorTheorems.GrantMatchesRectangle | spalloc_server/allocator.py:424-443 | boards, periphery and torus returned with a block are those of exactly the one rectangle newly marked allocated; it has the width and height, or the area and ratio, asked for, and its boards keep the limits on missing boards, dead links and torus links |
| AllocatorTheorems.BlockGrantedExactly | spalloc_server/allocator.py:209-280 | a block, or a number of boards, is granted if and only if some corner of some free leaf has the size asked for and keeps the limits, and, if a torus is required, the whole machine is asked for |
| AllocatorTheorems.BoardGrantedExactly | spalloc_server/allocator.py:543-608 | a particular board is granted if and only if it works and is unused in an opened triad or its triad is in a free leaf; any board, if and only if an opened triad has one unused or a triad at the corner of a free leaf has one that works |
| AllocatorTheorems.SingleBoardGrant | spalloc_server/allocator.py:569-577 | a single board is given with exactly its six links as periphery and no torus, and is the one asked for if one was |
| AllocatorTheorems.OpenedTriadsFirst | spalloc_server/allocator.py:550-608 | a triad is opened for single boards only if no opened one will do |
| AllocatorTheorems.OffTriadRequestLeaks | spalloc_server/allocator.py:547-608 | what comes of allocating a board numbered outside its triad: nothing is given; if the triad is free, and the board not listed as dead, the triad is opened and the invariant broken, and otherwise the state stays as it is |
| AllocatorTheorems.TriadConserved | spalloc_server/allocator.py:834-858 | the working boards of an opened triad are those unused and those out, none twice; it is in one pool, and an allocated 1x1 leaf |
| AllocatorTheorems.AllReturned | spalloc_server/allocator.py:850-856 | with nothing live and nothing in quarantine both pools are empty and the tree is one free leaf |
| AllocatorTheorems.CheckFreeDrops | spalloc_server/allocator.py:820-832 | a check frees exactly the longest run of expired entries at the front, however the clock moved |
| AllocatorTheorems.CheckFreeExact | spalloc_server/allocator.py:820-832 | with timestamps in order, a holding is released if and only if it was in quarantine and its time is up |
| AllocatorTheorems.CheckFreeSettles | spalloc_server/allocator.py:820-832 | checking again at the same time changes nothing |
| AllocatorTheorems.RunKeeps | spalloc_server/allocator.py:739-858 | the invariant holds at every point of every run |
| AllocatorTheorems.WholeRunDisjoint | spalloc_server/allocator.py:739-858 | at every point of every run the boards of all live and quarantined allocations are pairwise disjoint, in the machine, and not dead |
| AllocatorTheorems.HeldUntilExpired | spalloc_server/allocator.py:815-832 | no step takes boards from a holding unless it was freed and its quarantine time has passed |
| AllocatorTheorems.EntriesCarryTimes | spalloc_server/allocator.py:817-818 | in every run, every entry of the quarantine was put there by a free and carries the time of that free |
| AllocatorTheorems.FreedBoardsWait | spalloc_server/allocator.py:815-832 | in every run, boards freed at a time are held as they were until something is done when the quarantine, counted from that time, is over, whatever the clock does |
| AllocatorTheorems.FreedBoardsReturn | spalloc_server/allocator.py:820-832 | with a clock that never goes back, the first check made when that quarantine is over gives them up |
| AllocatorTheorems.QuarantineInOrder | spalloc_server/allocator.py:817-818 | with a clock that never goes back the quarantine is in time order in every run |
| AllocatorTheorems.EverythingComesBack | spalloc_server/allocator.py:820-858 | after any run, once nothing is live and all quarantine times are up, a check restores a new allocator but for the next identifier |
| AllocatorClass.Allocator.constructor | spalloc_server/allocator.py:52-112 | a new allocator is in the initial state |
| AllocatorClass.Allocator.AllocTriads | spalloc_server/allocator.py:209-280 | the method does what the specification of block allocation says |
| AllocatorClass.Allocator.AllocBoards | spalloc_server/allocator.py:362-443 | the same for a number of boards |
| AllocatorClass.Allocator.AllocBoard | spalloc_server/allocator.py:498-608 | the same for one board, particular or any, with the recursion after opening a triad, also for a board numbered outside its triad |
| AllocatorClass.Allocator.AllocPossible | spalloc_server/allocator.py:686-737 | the oracle answers as specified, or raises an error, exactly for a torus of one board and for a negative ratio that is looked at |
| AllocatorClass.Allocator.AllocBoardPossible | spalloc_server/allocator.py:445-496 | the oracle for one board |
| AllocatorClass.Allocator.AllocTriadsPossible | spalloc_server/allocator.py:139-207 | the oracle for a block of triads |
| AllocatorClass.Allocator.AllocBoardsPossible | spalloc_server/allocator.py:282-360 | the oracle for a number of boards |
| AllocatorClass.Allocator.FreeNext | spalloc_server/allocator.py:834-858 | the oldest quarantine entry is freed as specified, and can always be |
| AllocatorClass.Allocator.CheckFree | spalloc_server/allocator.py:820-832 | the loop frees what the specification frees and says whether it freed anything |
| AllocatorClass.Allocator.Free | spalloc_server/allocator.py:807-818 | a live allocation goes to the end of the quarantine; an unknown one is an error and changes nothing |
| AllocatorClass.Allocator.Alloc | spalloc_server/allocator.py:739-805 | an allocation first checks the quarantine and then has one of the specified outcomes, or raises the error; the allocator stays in order unless a board outside its triad was asked for |
| Oracle.OracleExact | spalloc_server/allocator.py:182-207 | for blocks, board counts and particular boards the oracle says yes if and only if allocating succeeds on the idle allocator with the same dead boards and links |
| Oracle.AnyBoardSucceeds | spalloc_server/allocator.py:591-599 | for an unspecified board, allocating on the idle allocator succeeds if and only if one of the four corner triads has a working board |
| Oracle.AnyBoardOracleExact | spalloc_server/allocator.py:491-496 | so the oracle for an unspecified board is right if and only if a corner triad works or every board is dead |
| Oracle.AnyBoardOracleCanBeWrong | spalloc_server/allocator.py:491-496 | a machine of three triads for which the oracle says yes and the idle allocator always refuses |
| Oracle.OutcomeExists | spalloc_server/allocator.py:796-805 | an allocation always has some specified outcome |
| JobQueueModel.StartKeepsBase | spalloc_server/job_queue.py:170-184 | starting a job that waits keeps all the queue's bookkeeping invariants, whoever else waits |
| JobQueueModel.StartKeepsOrder | spalloc_server/job_queue.py:170-184 | starting a job that is ahead of all that wait for the machine, but for stranded ones, keeps the history in order |
| JobQueueModel.CreateKeepsBase | spalloc_server/job_queue.py:435-438 | so does creating a job |
| JobQueueModel.CancelKeepsBase | spalloc_server/job_queue.py:458-462 | so does cancelling one |
| JobQueueModel.DropKeepsBase | spalloc_server/job_queue.py:469-473 | so does giving up a job's allocation |
| JobQueueModel.AddMachineKeepsBase | spalloc_server/job_queue.py:314-316 | so does adding a machine |
| JobQueueModel.RemoveMachineKeepsBase | spalloc_server/job_queue.py:381-382 | so does removing a machine on which no job runs |
| JobQueueModel.HeadReady | spalloc_server/job_queue.py:243-250 | a waiting job at the head of its queue could be served by the machine, and no job that waits for that machine was created before it, unless it is stranded |
| JobQueueModel.HeadIsFirst | spalloc_server/job_queue.py:243-255 | the job at the head of a queue was created before every other job that waits for the machine and is not stranded |
| JobQueueTheorems.IdleMachineHasNoQueue | spalloc_server/job_queue.py:236-255 | once the queues have been processed an idle machine has an empty queue, unless its head asks for any one board and no corner triad works |
| JobQueueTheorems.StuckHead | spalloc_server/job_queue.py:250-255 | in that exception the idle machine refuses the head whatever it does |
| JobQueueTheorems.IdleMachineCanStarve | spalloc_server/job_queue.py:236-255 | the exception occurs: a queue at rest with an idle machine and a waiting job |
| JobQueueTheorems.WaitsForARefusal | spalloc_server/job_queue.py:236-255 | a waiting job is in the queue of each machine able to serve it if and only if it is not stranded, and then it is behind, or is itself, a job that the machine has just refused |
| JobQueueTheorems.NoOvertaking | spalloc_server/job_queue.py:387-392 | in the whole history, when a machine was given a job, every earlier job that this machine could ever have served, whatever it asked for, had already been allocated or cancelled, or was stranded by a rebuild that had broken off |
| JobQueueTheorems.OvertakesExactly | spalloc_server/job_queue.py:243-255 | the head of a queue is started ahead of an earlier job that waits for the machine if and only if that job is stranded; it is then missing from the queue, and with nobody stranded it never happens |
| JobQueueTheorems.MissingAfterBreak | spalloc_server/job_queue.py:274-276 | after a rebuild that broke off, the queue of a machine misses exactly those jobs that wait for it and were created after the job at which it broke off |
| JobQueueTheorems.OvertakingHappens | spalloc_server/job_queue.py:274-276 | a run in which a rebuild breaks off and a job created afterwards is started while an earlier one with the same requirements waits on |
| JobQueueTheorems.EqualNeedsInOrder | spalloc_server/job_queue.py:387-392 | so jobs with the same requirements that are not stranded are decided in the order of their creation |
| JobQueueTheorems.StartsCandidates | spalloc_server/job_queue.py:204-220 | every job that was started asked for the machine it was given, and the machine's oracle had said yes |
| JobQueueTheorems.StartedWhereAsked | spalloc_server/job_queue.py:212-216 | a machine only ever starts jobs that name it, or that name none and whose every tag it has; its oracle has said yes, and the job is then on it |
| JobQueueTheorems.QueuedWhereAsked | spalloc_server/job_queue.py:204-220 | a waiting job that is not stranded is in the queues of exactly the machines it names or, if it names none, that have all its tags, and whose oracle says yes |
| JobQueueTheorems.OfferedWhereAsked | spalloc_server/job_queue.py:204-220 | offering a job adds it to the end of exactly those queues |
| JobQueueTheorems.CreatedAsAsked | spalloc_server/job_queue.py:414-439 | a new job asks for the machine or tags it was created with, or for the tag default; it is refused for a used identifier or for both machine and tags, and is an error if a machine it is meant for raises one |
| JobQueueTheorems.RebuildCanBreakOff | spalloc_server/job_queue.py:264-276 | an input for which rebuilding the queues raises an error: two jobs that no machine can serve, the first of which is cancelled while the dictionary is gone over |
| JobQueueTheorems.ErrorStays | spalloc_server/job_queue.py:257-276 | a job about which a machine raises an error makes every later rebuild break off, for as long as the job and the machine stay |
| JobQueueTheorems.TorusOfOneBoardStays | spalloc_server/job_queue.py:435-439 | a request for a torus of one board leaves such a job: it is entered before the error is raised |
| JobQueueTheorems.ToldOnce | spalloc_server/job_queue.py:181-182 | a job gets exactly one of the allocation and cancellation callbacks once it no longer waits, and none before |
| JobQueueTheorems.OneJobPerAllocation | spalloc_server/job_queue.py:170-184 | the live allocations of a machine correspond one to one to the jobs that run on it |
| JobQueueTheorems.JobsShareNoBoards | spalloc_server/job_queue.py:170-184 | jobs on one machine hold boards, share none, and all work |
| JobQueueTheorems.StartGivesFreeBoards | spalloc_server/job_queue.py:170-182 | the boards announced with a job are those held for it, held by no other job, and the others keep theirs, whoever else waits |
| JobQueueTheorems.TenantsStay | spalloc_server/job_queue.py:230-276 | whatever happens while queues are processed or rebuilt, also if that breaks off, running jobs stay where they are and keep their boards |
| JobQueueClass.JobQueue.constructor | spalloc_server/job_queue.py:101-116 | a new queue has no machines, jobs or callbacks |
| JobQueueClass.JobQueue.TryJob | spalloc_server/job_queue.py:160-184 | tried only for a job that overtakes none but stranded jobs, as the heads of queues do, an attempt comes to what the allocator may do after a check of its quarantine; it either starts the job, records the allocation and announces it, or changes nothing but the allocator's quarantine |
| JobQueueClass.JobQueue.EnqueueJob | spalloc_server/job_queue.py:186-228 | a job is queued on all candidates or else cancelled, and then the queues are processed |
| JobQueueClass.JobQueue.OfferToAll | spalloc_server/job_queue.py:204-220 | exactly the queues of the candidate machines get the job, at the end |
| JobQueueClass.JobQueue.ProcessQueue | spalloc_server/job_queue.py:230-255 | the loop terminates, each repeated pass lowering the number of waiting jobs, with every queue empty or headed by a waiting job just refused; all that has happened are attempts on heads of queues and the jobs started by them |
| JobQueueClass.JobQueue.RegenerateQueues | spalloc_server/job_queue.py:257-276 | the queues are rebuilt in order of creation; jobs may start, or be cancelled for want of any candidate, and nothing else happens to them; the rebuild breaks off if and only if some waiting job has no candidate and either is not the last in the dictionary, which its cancellation changes, or makes a machine raise an error; then exactly the jobs waiting behind it are stranded, and otherwise none |
| JobQueueClass.JobQueue.Enter | spalloc_server/job_queue.py:118-137 | queue management is suspended once more |
| JobQueueClass.JobQueue.Exit | spalloc_server/job_queue.py:139-141 | queue management is resumed, and the queues rebuilt if nobody else has suspended it; the error of a rebuild that breaks off is passed on |
| JobQueueClass.JobQueue.AddMachine | spalloc_server/job_queue.py:278-318 | a machine with a new allocator is added and the queues rebuilt, or the name is refused; it stays if the rebuild breaks off, which happens in exactly the case stated for RegenerateQueues |
| JobQueueClass.JobQueue.RemoveMachine | spalloc_server/job_queue.py:364-382 | exactly the jobs on the machine, and all of them, are told and give up their boards, the machine goes, and no remaining job refers to it, also if the rebuild afterwards breaks off |
| JobQueueClass.JobQueue.CreateJob | spalloc_server/job_queue.py:384-439 | a job is created and enqueued, or refused for a used identifier or for naming both a machine and tags; if a machine raises an error about it, for a torus of one board or a negative ratio, it stays in the dictionary, waiting |
| JobQueueClass.JobQueue.DestroyJob | spalloc_server/job_queue.py:441-467 | a waiting job is cancelled, and told so; an allocated one is told that it is freed and keeps its boards; and the queues are processed |
| JobQueueClass.JobQueue.Free | spalloc_server/job_queue.py:469-473 | a destroyed job's boards go to its machine's quarantine and the queues are processed; an unknown identifier is ignored |
| JobQueueClass.JobQueue.CheckFree | spalloc_server/job_queue.py:475-485 | every machine is checked, and the queues processed if and only if one has freed something; nothing happens while suspended |
| ControllerModel.SetPowerKeeps | spalloc_server/controller.py:1024-1076 | switching a job keeps the controller's invariant |
| ControllerModel.CreateRefusedKeeps | spalloc_server/controller.py:424-433 | so does recording a job that the job queue then refuses |
| ControllerModel.AllocateKeeps | spalloc_server/controller.py:1078-1119 | so does recording and powering on the boards given to a job |
| ControllerModel.WithdrawKeeps | spalloc_server/controller.py:1132-1149 | so does tearing down an allocated job |
| ControllerModel.CancelKeeps | spalloc_server/controller.py:1127-1145 | so does tearing down a cancelled one |
| ControllerModel.CompleteKeeps | spalloc_server/controller.py:983-1022 | so does the completion of a command, with the destruction of the job first if it failed; the counter is positive before it is lowered |
| ControllerModel.SetMaxRetiredKeeps | spalloc_server/controller.py:254-259 | so does changing how many destroyed jobs are remembered |
| ControllerTheorems.RunKeeps | spalloc_server/controller.py:392-557 | the invariant holds at every point of every run |
| ControllerTheorems.CounterExact | spalloc_server/controller.py:1009-1014 | at every point of every run a job's counter is the number of its outstanding commands, and a job with boards is in state power exactly while there are any |
| ControllerTheorems.AllocationSwitchesOn | spalloc_server/controller.py:1024-1119 | a job that is given boards is sent one request per frame; together they power on exactly its boards and disable exactly the links around it, and enable none |
| ControllerTheorems.UsersSwitch | spalloc_server/controller.py:507-529 | the same when its user switches it on; when its user switches it off exactly its boards are powered off and no link is touched |
| ControllerTheorems.DestructionSwitchesOff | spalloc_server/controller.py:1132-1149 | a job with boards that is destroyed has exactly those powered off, and no link touched |
| ControllerTheorems.DestructionRetires | spalloc_server/controller.py:1132-1145 | a job that is destroyed or cancelled is live no more and is the last to be remembered; the job queue keeps it only if it has boards |
| ControllerTheorems.FailureDestroys | spalloc_server/controller.py:1001-1008 | a command that fails destroys its job if it is live, and one that succeeds destroys nobody |
| ControllerTheorems.ReadyMeansIsolated | spalloc_server/controller.py:1009-1119 | at every point of every run, a live job that is ready has every board in the power state asked for and, if that is on, every link around it disabled |
| ControllerTheorems.TargetsAreHeld | spalloc_server/controller.py:1050-1071 | every outstanding command acts on boards, at least one, still held for its job |
| ControllerTheorems.QuietBeforeReuse | spalloc_server/controller.py:1013-1016 | if boards that nobody holds are given to a job, no outstanding command of any job acts on one of them |
| ControllerTheorems.PowerOffBeforeReturn | spalloc_server/controller.py:1001-1016 | boards are given back only at the completion of the last command of a destroyed job; the last command for each of its frames was then to power off, each board is known to be off if and only if the one for its frame succeeded, and none is known to be on |
| ControllerTheorems.FailedPowerOffGivesBack | spalloc_server/controller.py:1001-1016 | a run in which the power-off of a destroyed job fails: it is not repeated, and the board goes back without being known to be off |
| ControllerTheorems.ReturnedIfRemembered | spalloc_server/controller.py:1015-1016 | at that completion the boards are given back if and only if the job is still among the retired ones |
| ControllerTheorems.RememberedExactly | spalloc_server/controller.py:1139-1145 | in a run with a fixed limit a destroyed job is remembered if and only if fewer jobs than the limit have been destroyed after it |
| ControllerTheorems.ReturnedIfFewDestroyed | spalloc_server/controller.py:1015-1016 | so in such a run the boards of a destroyed job come back at its last completion if and only if fewer jobs than the limit have been destroyed after it |
| ControllerTheorems.ForgottenKeepsBoards | spalloc_server/controller.py:1144-1145 | a destroyed job evicted before that keeps its boards in every later state |
| ControllerTheorems.LimitChanges | spalloc_server/controller.py:254-259 | changing the limit forgets no more destroyed jobs than it must, the oldest first |
| ControllerTheorems.BoardsNeverComeBack | spalloc_server/controller.py:1139-1145 | a run with max_retired_jobs 0 in which a job is created, allocated, powered on, destroyed and powered off, and still holds its board with no command outstanding, so that it keeps it for ever |
| ControllerTheorems.RefusedExactly | spalloc_server/controller.py:424-433 | a live job is unknown to the job queue if and only if the queue refused it after the controller had recorded it, and it stays so for ever |
| ControllerTheorems.QuietMeansReturned | spalloc_server/controller.py:1013-1016 | with no command outstanding, no remembered destroyed job holds boards |
| ControllerTheorems.CommandsRunOut | spalloc_server/controller.py:983-1022 | if nothing but completions happens, whatever their outcomes, there are no more of them than commands outstanding and frames of live jobs; until none is outstanding another can complete; and then no remembered destroyed job holds boards |
| ControllerClass.Controller.constructor | spalloc_server/controller.py:116-175 | a new controller has no jobs and no commands |
| ControllerClass.Controller.GroupByFrame | spalloc_server/controller.py:1045-1065 | the loops give each frame the positions of the job's boards there and, if asked, the links around the job there, and give nothing to other frames |
| ControllerClass.Controller.SetJobPowerAndLinks | spalloc_server/controller.py:1024-1076 | one request is sent to each frame of the job, the counter rises by their number, and the state becomes power |
| ControllerClass.Controller.CreateJob | spalloc_server/controller.py:420-437 | a job gets an unused identifier and is recorded; it waits if the job queue has entered it, and is else a live job unknown to the queue; the invariant is kept either way |
| ControllerClass.Controller.PowerJobBoards | spalloc_server/controller.py:507-529 | a live job's boards are switched; other jobs are ignored |
| ControllerClass.Controller.DestroyJob | spalloc_server/controller.py:551-557 | a live job is cancelled or torn down, others are ignored, and one that the queue has refused is an error that changes nothing |
| ControllerClass.Controller.SetMaxRetiredJobs | spalloc_server/controller.py:254-259 | the loop forgets the oldest destroyed jobs beyond the limit |
| ControllerClass.Controller.OnAllocate | spalloc_server/controller.py:1078-1119 | the boards are recorded and powered on with the links around them disabled |
| ControllerClass.Controller.OnFree | spalloc_server/controller.py:1121-1149 | the job is retired and its boards are powered off |
| ControllerClass.Controller.OnCancel | spalloc_server/controller.py:1127-1145 | the job is retired |
| ControllerClass.Controller.OnRequestComplete | spalloc_server/controller.py:983-1022 | a failed command destroys its job first; the counter is lowered, never below zero, and at zero the job is ready and the boards of a remembered destroyed job are given back |
| ServerTheorems.QueueGivesFreeBoards | spalloc_server/job_queue.py:170-182 | the boards that the queue gives to a waiting job are, for the controller, boards of that machine which no job holds |
| ServerTheorems.QueueIsTrusted | spalloc_server/controller.py:1078-1130 | all that the queue makes the controller do is what the controller's own theorems allow it to do |
| ServerTheorems.StepKeeps | spalloc_server/controller.py:392-557 | every step of queue, controller, users and hardware keeps both in order and in agreement about who has which boards |
| ServerTheorems.RunKeeps | spalloc_server/controller.py:392-557 | so they are in order and agree at every point of every run |
| ServerTheorems.KnownAlike | spalloc_server/controller.py:1078-1145 | at every point of every run queue and controller know the same jobs, take the same ones to be waiting, and the boards the controller switches for a job are those the allocator holds for it |
| ServerTheorems.BoardsComeQuiet | spalloc_server/controller.py:1013-1016 | in every run of queue and controller together, the boards the queue gives to a job are held by no other job, and no outstanding command of any job acts on one of them |
| ServerTheorems.JobsAreIsolated | spalloc_server/controller.py:1009-1119 | in every run of queue and controller together, a live job that is ready and powered on has every board on, and every link from one of its boards to a board that is not its own disabled |
| ServerTheorems.QueueAtWork | spalloc_server/job_queue.py:230-276 | whatever the queue does when it is processed or rebuilt, also if that breaks off, is part of a run of queue and controller, after which both are in order and agree |
| ServerTheorems.CommandCanComplete | spalloc_server/controller.py:983-1022 | as long as commands are outstanding some completion is possible, with either outcome |
| ServerTheorems.AllBoardsComeBack | spalloc_server/controller.py:1013-1016 | with all jobs but refused ones destroyed and no command outstanding, no allocation is live on any machine if and only if no forgotten job still has boards; if no job was ever forgotten the queue is empty and nothing is live |
| BmpWorkerModel.GoodAfter | spalloc_server/async_bmp_controller.py:104-118 | every step of an adder, of a request to stop, and of the thread keeps the worker's invariant |
| BmpWorkerModel.RunGood | spalloc_server/async_bmp_controller.py:187-246 | so it holds in every interleaving |
| BmpWorkerModel.NoLostWakeUp | spalloc_server/async_bmp_controller.py:194-246 | at the wait, pending work or a pending stop means that the flag is set |
| BmpWorkerModel.FifoOnce | spalloc_server/async_bmp_controller.py:197-235 | the k-th call of on_done is for the k-th request added; a success is reported after a first success, a failure after exactly two failed attempts |
| BmpWorkerModel.StopsEmpty | spalloc_server/async_bmp_controller.py:237-246 | the thread ends only with every request completed, and nothing can be added afterwards |
| BmpWorkerModel.Delivers | spalloc_server/async_bmp_controller.py:194-246 | left alone, the thread comes to rest with every request completed, and has ended if and only if it was told to stop |
| BmpWorkerModel.PowerOnSucceeds | spalloc_server/async_bmp_controller.py:136-165 | powering on and checking, again for the boards that fail, succeeds if and only if every board passes one of the checks |
| BmpWorkerModel.RetryIsHarmless | spalloc_server/async_bmp_controller.py:136-235 | an attempt that broke off anywhere followed by one that succeeds, whichever boards were powered on again in either, leaves the hardware as sending every command once does |
| BmpWorkerModel.PowerTakesEffect | spalloc_server/async_bmp_controller.py:202-218 | after an attempt that succeeds the boards to be powered off are off, and those only to be powered on are on |
| BmpWorkerModel.LinkTakesEffect | spalloc_server/async_bmp_controller.py:207-212 | after an attempt that succeeds every link is as the last request for it says |
| BmpWorkerModel.AttemptInOrder | spalloc_server/async_bmp_controller.py:202-218 | in an attempt boards are powered on first, then links are switched, and boards are powered off last |
| BmpWorkerClass.BmpWorker.constructor | spalloc_server/async_bmp_controller.py:78-93 | a new worker waits with an empty queue and the flag clear |
| BmpWorkerClass.BmpWorker.AddRequests | spalloc_server/async_bmp_controller.py:104-110 | a request is appended and the flag set, unless the worker has been told to stop |
| BmpWorkerClass.BmpWorker.AskToStop | spalloc_server/async_bmp_controller.py:112-118 | the stop flag and the event flag are set together |
| BmpWorkerClass.BmpWorker.Take | spalloc_server/async_bmp_controller.py:197-198 | the oldest request, if any, is taken from the queue |
| BmpWorkerClass.BmpWorker.Serve | spalloc_server/async_bmp_controller.py:200-235 | the retry loop stops at the first success or after two tries and calls on_done once, with the outcome |
| BmpWorkerClass.BmpWorker.PowerOnAndCheck | spalloc_server/async_bmp_controller.py:136-165 | the loop succeeds if and only if every board passes one of the three checks, and its commands do to the hardware what powering on all boards once does |
| BmpWorkerClass.BmpWorker.Settle | spalloc_server/async_bmp_controller.py:239-246 | with nothing queued the flag is cleared, and the thread ends if told to stop |

## Left out

- AreaToRect.WithRatioCovers: states that the height exceeds the ratio times the width less one, not the ratio itself, because rounding up the width can miss it; RatioMissedExactly says when.
- AreaToRect.RectForRatio: likewise allows for less than one unit of rounding, because the code does.
- CandidateFilter.CandidateFilter.Call: has three kinds of condition fixed in one class instead of arbitrary closures; these are all the conditions the allocator uses.
- AllocatorClass.Allocator.Alloc: requires the ratio of a count not to be negative; the code would raise an error in the middle of the search, but alloc_possible raises it before the queue asks.
- JobQueueClass.JobQueue.DestroyJob: requires the identifier to be known, as the code does.
- ControllerClass.Controller.CreateJob: whether the job queue enters the job is a parameter here; ServerTheorems has both cases.
- ControllerTheorems.QuietBeforeReuse: takes it from the queue that the boards are free; BoardsComeQuiet does without that.
- ServerTheorems.BoardsComeQuiet: is about runs in which machines are added but not removed; a machine removed while its jobs are being powered off is not modelled.
- BmpWorkerModel.FifoOnce: assumes that on_done does not raise an exception; the code would then repeat the request.
- ControllerModel.SetPowerKeeps: a request holds the set of board positions and links for its frame; the order within it, which is that of iterating a Python set, is not modelled.
- Floating point: the square root, divisions and ceilings of the rectangle calculation are exact here.
- Changing a machine's dead boards, dead links or tags while it is in use (modify_machine), and reordering machines (move_machine_to_end).
- Metadata computed for a job when it starts (its size in chips and its connections), keepalive times, change notifications, and the queries where_is and chip_to_board, which rest on a geometry library that is not part of this model.
- What a command does on the wire: FPGA registers and the transceiver; which boards fail the check in each round, and where an attempt breaks off, are parameters. Boards with an old BMP, whose check and links are skipped, are not told apart.
- A crash of the worker thread, and the hand-over between the workers of an old and a new machine of one name.
- Sockets, JSON, configuration, signals, pickling and logging.
- from_vector and to_vector of the links, which the allocation stack does not use.
