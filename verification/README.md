# Verified models of the systems exercises

This project models the concurrent and stateful exercises of the repository in Dafny and proves what they are for, for
every input, every number of threads and every interleaving:

- the parallel in-place sort that meets at a reusable two-phase barrier (`Lab4/Lab4_2.c`),
- the students, offices and special office that talk through bounded queues (`Lab3/Lab3.c`),
- the open files, the directory tree and the chunked write of the xv6 kernel (`Lab6/xv6-semaphores`),
- sequential and fork/join merge sort (`Lab2`),
- readers and writers (`homework/reader_writer.c`).

`dafny verify dfyconfig.toml` verifies all of it.

## How the models are built

Concurrent programs are state machines. `Next` takes one step of one thread: one lock or semaphore operation, one test,
one access of shared data, or the body of a critical section that no other thread can observe half done. `CanStep` says
when the thread is not blocked and that the step touches no memory it must not touch. A schedule is a sequence of
threads; `Feasible` and `Run` execute it from any state, so a lemma over schedules is a lemma over interleavings. Fields
called history in the comments are read by no guard. A lemma that assumes the invariant `Inv` of its module holds in
every reachable state: `InitialInv` and `RunInv` (for files `ConsistentInv`, for directories `FormattedInv`) say so.

Code that works in place is imperative: `RegionSort` and `MergeSorting` on arrays, `RingBuffer.Buffer`,
`FileTable.Kernel`, `FileWriting.OpenFile` and `DirectoryCalls.Volume` as classes whose methods follow the source
statement by statement. Each method is proved against a function, and the lemmas are about that function:
`RegionSort` against steps of `BarrierSort`, `RingBuffer` against the queues of `Offices`, `FileTable` against steps of
`FileRefs`, `DirectoryCalls` against `Namespace`.

| files | what they hold |
|---|---|
| `Counting`, `Options` | counting and summing over sequences; a value that may be missing |
| `SortTheory`, `BarrierSort`, `RegionSort` | inversions; the barrier machine; the loops on the array |
| `Offices`, `OfficeInvariant`, `OfficeSteps`, `OfficeMessages` | the office machine, its invariant, and its preservation |
| `OfficeResults`, `OfficeProgress`, `OfficeBounds`, `OfficeOutcomes` | queues; no deadlock; bounded runs; how runs end |
| `OfficeRouting`, `OfficeMarks` | which office serves a student; how its draw decides the student's course |
| `OfficeChoices`, `OfficeWakeups` | which request a server takes; the machine with spurious wakeups |
| `RingBuffer` | the cyclic buffer and the queue it implements |
| `FileRefs`, `FileRefSteps`, `FileRefResults`, `FileTable` | reference counts of open files; the system calls on them |
| `Namespace`, `NamespaceInvariant`, `NamespaceSteps`, `NamespaceTree`, `DirectoryCalls` | create, link and unlink on the directory tree |
| `FileWriting` | the write loop and the log |
| `MergeSorting`, `ForkJoin` | merge sort in place; all interleavings of the threaded sorts |
| `ReadersWriters` | readers and writers |

## What the proofs found

- With one student an office's urgent queue has length `k/2 == 0` (`Lab3/Lab3.c:163`). A student sent there waits for
  ever. All students leave in every run that cannot go on if and only if there are at least two
  (`OfficeOutcomes.AllLeaveIffTwo`); with one, exactly the runs that never send it back to an office end well.
- A file with a single integer gives zero threads and a division by zero (`Lab4/Lab4_2.c:63-67`); from two integers on
  the split is usable (`BarrierSort.SplitUsable`).

## Model

| member | source | states |
|---|---|---|
| `SortTheory.InversionsArePairs` | Lab4/Lab4_2.c:112-119 | the inversion count used below is the number of pairs of positions that are out of order |
| `SortTheory.SwapRemovesOne` | Lab4/Lab4_2.c:101-105 | exchanging two neighbours that are strictly out of order lowers the whole array's inversion count by exactly one |
| `BarrierSort.SplitUsable` | Lab4/Lab4_2.c:63-67 | the number of threads is positive exactly from two integers on, and then every region has at least one element |
| `BarrierSort.ThreadsIsCeilLog10` | Lab4/Lab4_2.c:63 | the number of threads is the least power of ten that reaches the number of integers |
| `BarrierSort.RegionsPartition` | Lab4/Lab4_2.c:78-88 | every index of the array lies in exactly one thread's region |
| `BarrierSort.RunExchanges` | Lab4/Lab4_2.c:112-138 | along any schedule the array stays a permutation, and exchanges made plus inversions left is constant |
| `BarrierSort.RunInv` | Lab4/Lab4_2.c:107-165 | the invariant of mutex, counter, both semaphores, rounds and array holds in every reachable state |
| `BarrierSort.RegionOwned` | Lab4/Lab4_2.c:110-119 | while a thread sorts, no step of another thread changes an element of its region |
| `BarrierSort.BordersAreExclusive` | Lab4/Lab4_2.c:121-133 | while borders are examined or exchanged every other thread is parked before the first semaphore and it has no token |
| `BarrierSort.TokensOfOneRound` | Lab4/Lab4_2.c:134-164 | the two semaphores never hold tokens at once, tokens are taken only by threads of the round they were posted for, and no thread gets more than a round ahead |
| `BarrierSort.MemorySafe` | Lab4/Lab4_2.c:110-133 | no reachable step reads or writes outside the array |
| `BarrierSort.SomeoneCanStep` | Lab4/Lab4_2.c:107-165 | in every reachable state before exit some thread can step |
| `BarrierSort.WaitsExactly` | Lab4/Lab4_2.c:120-164 | a thread has to wait exactly while another one is inside the barrier's mutex it comes to, or its semaphore has no token; never while sorting |
| `BarrierSort.CompleteRunSorts` | Lab4/Lab4_2.c:107-149 | any run that reaches exit leaves a sorted permutation of the input, has made exactly as many exchanges as the input has inversions, and every thread went round the barrier the same number of times, at most that many |
| `BarrierSort.ScheduleIndependent` | Lab4/Lab4_2.c:107-149 | two complete runs end with the same array and the same number of exchanges, whatever their schedules |
| `BarrierSort.EveryMaximalRunSorts` | Lab4/Lab4_2.c:107-165 | every run is finite with an explicit bound, and one that cannot go on has exited with the array sorted |
| `RegionSort.Region.constructor` | Lab4/Lab4_2.c:81-88 | the bounds computed for thread i are those of its region |
| `RegionSort.Region.Exchange` | Lab4/Lab4_2.c:101-105 | exactly the two neighbours change places |
| `RegionSort.Region.ShiftLeft` | Lab4/Lab4_2.c:114-117 | one turn of the inner loop keeps the region sorted but for the moved element, and is one step of the machine |
| `RegionSort.Region.Insert` | Lab4/Lab4_2.c:113-118 | the sorted part of the region grows by one, the rest is untouched, and the effect is a run of this thread alone |
| `RegionSort.Region.Sort` | Lab4/Lab4_2.c:110-119 | the region ends sorted, the array is a permutation, nothing outside changes, and the effect is a run of this thread alone |
| `RegionSort.Region.FixBorders` | Lab4/Lab4_2.c:126-133 | reports an exchange exactly if some border was inverted, lowers the inversion count then and changes nothing otherwise, and is a run of this thread alone |
| `RegionSort.Region.FixBorder` | Lab4/Lab4_2.c:128-132 | one border is exchanged exactly if it is inverted |
| `RingBuffer.SentAppends` | Lab3/Lab3.c:115-120 | storing in the cyclic buffer appends to the waiting messages and overwrites none of them |
| `RingBuffer.ReceivedDrops` | Lab3/Lab3.c:148-154 | reading takes the oldest waiting message and keeps the others in order |
| `RingBuffer.NewBufferIsFifo` | Lab3/Lab3.c:82-158 | for any history of calls on a new buffer the messages received are a prefix of those sent, in order, at most dim wait, and in == (out + count) mod dim |
| `RingBuffer.QueueRefined` | Lab3/Lab3.c:107-158 | full, empty, store and fetch on the buffer are full, empty, append and drop-first on the queue of the office machine |
| `RingBuffer.Buffer.constructor` | Lab3/Lab3.c:82-95 | a new buffer is valid and holds no message |
| `RingBuffer.Buffer.Put` | Lab3/Lab3.c:110-120 | appends the message, or makes the caller wait exactly if the buffer is full |
| `RingBuffer.Buffer.Take` | Lab3/Lab3.c:143-154 | removes the oldest message, or makes the caller wait exactly if there is none |
| `OfficeMessages.InitialInv` | Lab3/Lab3.c:29-45 | the start state satisfies the invariant, for any number of students from one on |
| `OfficeMessages.StepInv` | Lab3/Lab3.c:107-266 | every step of a student, an office or the special office keeps the invariant of mutexes, queues, requests, tickets, sleepers and counters |
| `OfficeMessages.RunInv` | Lab3/Lab3.c:107-266 | so the invariant holds after every schedule; it includes, for each ticket counter: counter + tickets taken but not redeemed + messages stored but not counted = length of the queue |
| `OfficeSteps.ServerFindsMessage` | Lab3/Lab3.c:171-190 | a server that took a ticket finds its queue non-empty when it receives |
| `OfficeResults.NeverFull` | Lab3/Lab3.c:42-43 | normal, special and answer queues never make a sender wait; only an urgent queue can |
| `OfficeResults.ExactlyOnce` | Lab3/Lab3.c:107-158 | no two slots of any queues hold requests of the same student, and a queued request is where its student's card says |
| `OfficeResults.NotLost` | Lab3/Lab3.c:227-253 | a request under way is in that queue or in that server's hands; before and after, it is in no queue |
| `OfficeResults.HeldByOne` | Lab3/Lab3.c:170-204 | a request in a server's hands is in no queue and in no other server's hands |
| `OfficeResults.Routing` | Lab3/Lab3.c:181-202 | an answer queue delivers only to its student, with the number of the office on the student's card; the office that takes an urgent request is the one on the card, which is the office of the first service by the `OfficeRouting` rows; whether there is an urgent request at all is settled by the `OfficeMarks` rows |
| `OfficeRouting.StepDesk` | Lab3/Lab3.c:190-202 | a step changes a student's office only if it answers the student's first request, and then from none to the office that answers |
| `OfficeRouting.DeskStable` | Lab3/Lab3.c:193-251 | from the first answer on, no run changes which office a student belongs to |
| `OfficeRouting.SameOffice` | Lab3/Lab3.c:181-251 | if at some point of a run a server answers the first request of a student, then whoever serves that student's urgent request at any later point, in any state of serving it, is that server |
| `OfficeRouting.UrgentGoesBack` | Lab3/Lab3.c:181-251 | whoever serves a student's urgent request in any state of any run answered that student's first request, in exactly one step of the run |
| `OfficeMarks.StepCourse` | Lab3/Lab3.c:194-266 | every step keeps: a student is on its first trip, with an answer that carries the draw if one has been made, or further on, and then the draw sent it there; only the first answer decides |
| `OfficeMarks.MarkDecides` | Lab3/Lab3.c:194-266 | once an office has answered a student's first request, in every later state the student has a request for the special office or beyond only if the draw of that very step said so, it does not leave after the first trip if the draw did, and when it has left it has sent two messages or six accordingly |
| `OfficeMarks.AnswerCame` | Lab3/Lab3.c:227-251 | a student that leaves, or goes on to the special office, has been answered by an office at some step of the run |
| `OfficeMarks.SendsOfCompleteRun` | Lab3/Lab3.c:194-266 | a run in which all k students leave makes 2k sends plus four for each student that an office's draw sent on |
| `OfficeChoices.UrgentFirst` | Lab3/Lab3.c:170-190 | in any run, an office that looks for work takes a waiting urgent request of its own before any normal one, a normal one if there is no urgent one, and sleeps exactly if neither waits |
| `OfficeChoices.SpecialWhenWaiting` | Lab3/Lab3.c:211-219 | the special office takes a request exactly if one waits for it, and sleeps otherwise |
| `OfficeProgress.LockOrder` | Lab3/Lab3.c:107-138 | whoever holds a mutex is awake and waits for none but the counters' mutex; the holder of the counters' mutex waits for none |
| `OfficeProgress.WaitsExactly` | Lab3/Lab3.c:107-158 | a thread that is awake has to wait exactly while another thread holds the mutex it wants |
| `OfficeProgress.EnabledIsSafe` | Lab3/Lab3.c:163-230 | no step uses a queue, or compares its address, before it has been created, and every index is in range |
| `OfficeProgress.StuckQueuesEmpty` | Lab3/Lab3.c:171-175 | if no thread can step then no request waits in a queue that servers read |
| `OfficeProgress.StuckStudent` | Lab3/Lab3.c:227-266 | and every student has left, unless there is only one and it has been sent to an urgent queue |
| `OfficeProgress.SomeoneCanStep` | Lab3/Lab3.c:107-266 | with at least two students, some thread can step until all have left |
| `OfficeBounds.StepDrops` | Lab3/Lab3.c:107-266 | a measure on program counters and requests gets smaller with every step of every thread, servers' endless loops included |
| `OfficeBounds.RunLength` | Lab3/Lab3.c:107-266 | every run of k students takes at most (13(k + 5) + 1) * 24k + 13(k + 5) steps |
| `OfficeOutcomes.NoLostWakeup` | Lab3/Lab3.c:107-175 | in every state of every run whoever sleeps on a condition variable sleeps on a condition that is still false |
| `OfficeOutcomes.CountersOfRuns` | Lab3/Lab3.c:256-265 | at most 6k sends; the counter is the number of students not signed off; the terminating signal is issued by at most one thread, at most once, and only after all have signed off |
| `OfficeWakeups.WakeInv` | Lab3/Lab3.c:110-175 | a spurious wakeup of any sleeper keeps the invariant |
| `OfficeWakeups.SurvivesWakeups` | Lab3/Lab3.c:107-266 | with spurious wakeups at any time: no step uses a queue that does not exist, whoever sleeps does so on a false condition, at most 6k sends and one signal, an urgent request is served by the office on the student's card, and with two or more students some thread can take a step until all have left |
| `OfficeOutcomes.EveryMaximalRun` | Lab3/Lab3.c:227-266 | a run that cannot go on leaves the request queues empty and the servers waiting for work, and has let all students leave, with exactly one signal, if and only if there are two or more or the single one was never sent back to an office |
| `OfficeOutcomes.AllLeaveIffTwo` | Lab3/Lab3.c:163 | all students leave in every run that cannot go on if and only if there are at least two |
| `FileRefSteps.StepInv` | Lab6/xv6-semaphores/file.c:137-191 | every step of every process keeps: ref = descriptors + references in flight, for every file |
| `FileRefSteps.DupEnds` | Lab6/xv6-semaphores/file.c:156-164 | the panic of filedup is unreachable, and counting the new descriptor keeps the invariant |
| `FileRefSteps.ClosingFacts` | Lab6/xv6-semaphores/file.c:172-175 | the panic of fileclose is unreachable, and a file without an object is closed only by the process that was opening it |
| `FileRefSteps.PrivateWhileBlank` | Lab6/xv6-semaphores/sysfile.c:460-472 | between filealloc and the assignment of its fields no other process has a reference to the file |
| `FileRefResults.BootConsistent` | Lab6/xv6-semaphores/file.c:48-58 | an empty file table is consistent |
| `FileRefResults.StaysConsistent` | Lab6/xv6-semaphores/sysfile.c:174-256 | from any consistent table, under any interleaving of dup, close, open and pipe by any number of processes: no panic, and whenever no call is in progress each ref is the number of descriptors that point to the file |
| `FileRefResults.ReleasedOnce` | Lab6/xv6-semaphores/file.c:175-190 | no inode or pipe end is released twice or while a file holds it, and between calls exactly those of files without references have been released |
| `FileRefResults.CallsBegin` | Lab6/xv6-semaphores/sysfile.c:207-256 | an idle process has at most six steps to go after the first step of a call |
| `FileRefResults.CallsEnd` | Lab6/xv6-semaphores/sysfile.c:434-474 | a call in progress is never stuck, and each step of its own brings it nearer to its end |
| `FileRefResults.OthersWait` | Lab6/xv6-semaphores/sysfile.c:191-205 | no process touches another's descriptors or progress |
| `FileTable.FailuresRollBack` | Lab6/xv6-semaphores/sysfile.c:460-465 | a dup, close, open or pipe that fails leaves both tables as they were and gives back exactly what it had acquired |
| `FileTable.CloseUndoesDup` | Lab6/xv6-semaphores/sysfile.c:207-256 | closing the descriptor that dup returned restores both tables and releases nothing |
| `FileTable.DupDoes` | Lab6/xv6-semaphores/sysfile.c:207-219 | dup succeeds exactly if the descriptor is open and one is empty; it answers the lowest empty one, which then leads to the same file, whose ref is one more; no other descriptor or file changes |
| `FileTable.CloseDoes` | Lab6/xv6-semaphores/sysfile.c:245-256 | close succeeds exactly if the descriptor is open; it is empty then, the file's ref is one less, the object is given back exactly if that was the last reference, and no other descriptor or file changes |
| `FileTable.OpenDoes` | Lab6/xv6-semaphores/sysfile.c:434-474 | open succeeds exactly if the path is usable, a file is free and a descriptor is empty; it answers the lowest empty descriptor, which then leads to the lowest free file, with ref 1 and the inode of the path; no other descriptor or file changes |
| `FileTable.PipeDoes` | Lab6/xv6-semaphores/sysfile.c:558-580 | pipe succeeds exactly if two files are free and two descriptors are empty; the two lowest empty descriptors then lead to the read end and the write end, in two files that were free, and nothing else changes |
| `FileTable.DupAlone` | Lab6/xv6-semaphores/sysfile.c:207-219 | the function that specifies dup is what the machine does when only this process moves: every step of the schedule belongs to this very call, and the process is idle again only after the last one |
| `FileTable.CloseAlone` | Lab6/xv6-semaphores/sysfile.c:245-256 | likewise for close: one call of close on this descriptor, from idle to idle |
| `FileTable.OpenAlone` | Lab6/xv6-semaphores/sysfile.c:434-474 | likewise for open: no inode for the path, a directory to be written, no free file, no free descriptor, or success, each in one call from idle to idle |
| `FileTable.PipeAlone` | Lab6/xv6-semaphores/sysfile.c:558-580 | likewise for pipe, with all its failures, from idle to idle in one call |
| `FileTable.ProcessCovered` | Lab6/xv6-semaphores/sysfile.c:174-189 | in every reachable state what the class assumes of its tables holds for every idle process |
| `FileTable.Kernel.FileAlloc` | Lab6/xv6-semaphores/file.c:137-152 | takes the first file with ref 0 and sets its ref to 1, or fails exactly if there is none |
| `FileTable.Kernel.FdAlloc` | Lab6/xv6-semaphores/sysfile.c:193-205 | fills the first empty descriptor, or fails exactly if there is none |
| `FileTable.Kernel.FileDup` | Lab6/xv6-semaphores/file.c:155-164 | one reference more, nothing else changes |
| `FileTable.Kernel.FileClose` | Lab6/xv6-semaphores/file.c:167-191 | one reference less; with the last one the entry is cleared and its object released |
| `FileTable.Kernel.SysDup` | Lab6/xv6-semaphores/sysfile.c:207-219 | tables and result are those of the specified dup, so those of `DupDoes` |
| `FileTable.Kernel.SysClose` | Lab6/xv6-semaphores/sysfile.c:245-256 | tables, releases and result are those of the specified close, so those of `CloseDoes` |
| `FileTable.Kernel.SysOpen` | Lab6/xv6-semaphores/sysfile.c:444-473 | tables, releases and result are those of the specified open, so those of `OpenDoes`, from the outcome of looking up or creating the path on |
| `FileTable.Kernel.SysPipe` | Lab6/xv6-semaphores/sysfile.c:565-579 | tables, releases and result are those of the specified pipe, and the two numbers handed to the caller lead to the read end and the write end |
| `FileWriting.WrittenTwice` | Lab6/xv6-semaphores/file.c:253-262 | writing one piece and then the next after it is writing both at once |
| `FileWriting.PieceFitsLog` | Lab6/xv6-semaphores/file.c:238-244 | a piece at any offset spans few enough blocks for the log, for every log size; with LOGSIZE 10 at most 4, so 2 * 4 + 2 <= LOGSIZE |
| `FileWriting.PieceIsLongest` | Lab6/xv6-semaphores/file.c:238-244 | the piece is a whole number of blocks, and one block more would overrun the log at some offset |
| `FileWriting.OneWrite` | Lab6/xv6-semaphores/file.c:244-264 | if the inode takes all it is given, what the loop has written is one write of all the bytes, and no piece fell short |
| `FileWriting.OpenFile.FileWrite` | Lab6/xv6-semaphores/file.c:229-267 | if the inode takes all it is given, the call returns n, advances the offset by n and is one write of the n bytes at the old offset; in general content and offset are those of one write of the bytes before the first refusal or short piece, -1 is returned exactly if the inode refuses the next piece, and the two panics are reached exactly for a short piece and for an unused file; a pipe's result is passed on; every transaction fits the log, they follow without gaps, each is as long as what the inode answers to the next piece, and all but the last are as long as the log allows |
| `FileWriting.OpenFile.WritePieces` | Lab6/xv6-semaphores/file.c:245-264 | the loop terminates with the bytes before the first refusal or short piece written as if at once, in the transactions that the inode's answers ask for |
| `FileWriting.OpenFile.WritePiece` | Lab6/xv6-semaphores/file.c:251-262 | one transaction extends the write by what the inode takes of its piece, or changes nothing if it is refused, and a piece that is refused or falls short ends the call as `WritePieces` says |
| `NamespaceSteps.StepInv` | Lab6/xv6-semaphores/sysfile.c:270-432 | create, link and unlink keep link counts and tree shape, and the panic for nlink < 1 is unreachable |
| `NamespaceSteps.EmptyDir` | Lab6/xv6-semaphores/sysfile.c:361-377 | a directory that unlink may remove has one link and one entry, in its parent, and is no directory's parent |
| `NamespaceTree.EveryRunKeepsTheTree` | Lab6/xv6-semaphores/sysfile.c:270-432 | after any calls on a new file system: no panic; a file has as many links as named entries; a directory in the tree has 1 + child directories links and exactly one downward path from the root; a removed directory is empty and has no entry |
| `NamespaceTree.PathTo` | Lab6/xv6-semaphores/sysfile.c:389-432 | every directory in the tree is reached from the root going down |
| `NamespaceTree.OnePath` | Lab6/xv6-semaphores/sysfile.c:284-288 | by one path only |
| `NamespaceTree.CreateSucceeds` | Lab6/xv6-semaphores/sysfile.c:396-407 | create succeeds exactly if the directory exists and the name is free or, for a file, leads to a file; otherwise nothing changes |
| `NamespaceTree.LinkSucceeds` | Lab6/xv6-semaphores/sysfile.c:276-314 | link succeeds exactly if the old path leads to an inode that is no directory and the new name is free in an existing directory of the same device; otherwise nothing changes |
| `NamespaceTree.UnlinkSucceeds` | Lab6/xv6-semaphores/sysfile.c:342-386 | unlink succeeds exactly if the path leads somewhere by a name other than the dots, and not to a directory in which a name leads somewhere; otherwise nothing changes |
| `NamespaceTree.CreateResolves` | Lab6/xv6-semaphores/sysfile.c:396-431 | a create that succeeds makes its path lead to the inode it returns, and breaks no other path |
| `NamespaceTree.CreateMakes` | Lab6/xv6-semaphores/sysfile.c:409-431 | a create on a free name makes exactly one inode where there was none, of the kind asked for and with one link; a new directory holds the two dots only, for itself and for the directory it was made in |
| `NamespaceTree.CreateAgain` | Lab6/xv6-semaphores/sysfile.c:400-407 | a second create of the same file answers the same inode and changes nothing |
| `NamespaceTree.KindsStay` | Lab6/xv6-semaphores/sysfile.c:270-432 | no sequence of calls removes an inode or changes what kind it is |
| `NamespaceTree.LinkResolves` | Lab6/xv6-semaphores/sysfile.c:278-306 | a link that succeeds makes both paths lead to the same inode, where the new one led nowhere, and changes no other name |
| `NamespaceTree.UnlinkResolves` | Lab6/xv6-semaphores/sysfile.c:344-381 | an unlink that succeeds makes its path lead nowhere and changes no other name |
| `NamespaceTree.UnlinkUndoesLink` | Lab6/xv6-semaphores/sysfile.c:270-387 | unlinking a name just linked restores every link count and every name |
| `DirectoryCalls.Volume.IsDirEmpty` | Lab6/xv6-semaphores/sysfile.c:318-331 | true exactly if no slot from the third on is in use |
| `DirectoryCalls.Volume.Create` | Lab6/xv6-semaphores/sysfile.c:390-432 | file system and answer are those of the specified create, so those of `CreateMakes` and `CreateAgain`; the panic after dirlink is unreachable |
| `DirectoryCalls.Volume.Link` | Lab6/xv6-semaphores/sysfile.c:271-315 | file system and answer are those of the specified link; in particular a link that fails restores the count it had raised |
| `DirectoryCalls.Volume.Unlink` | Lab6/xv6-semaphores/sysfile.c:334-387 | file system and answer are those of the specified unlink |
| `MergeSorting.MergeSortIsStable` | Lab2/merge.c:35-46 | the result is sorted and keeps, for every key, the elements with that key in their order |
| `MergeSorting.StableSortIsUnique` | Lab2/merge.c:35-46 | there is only one such arrangement of the input |
| `MergeSorting.StableSortPermutes` | Lab2/merge.c:35-46 | it is a permutation of the input |
| `MergeSorting.MergeInPlace` | Lab2/merge.c:5-33 | the range becomes the merge of its two parts, everything outside is unchanged |
| `MergeSorting.SortInPlace` | Lab2/merge.c:35-46 | the range becomes its stable sort, everything outside is unchanged, and the recursion ends |
| `ForkJoin.StepSound` | Lab2/Lab2.2.c:41-70 | live threads own nested or disjoint ranges, finished ranges are final, and no step of one thread disturbs another's range |
| `ForkJoin.StepMutex` | Lab2/Lab2.1.c:64-66 | the mutex is held exactly while one merge runs |
| `ForkJoin.EveryRunForks` | Lab2/Lab2.2.c:49-63 | in every run each split whose range is as long as the threshold forks, and no shorter one does |
| `ForkJoin.ForkedHalves` | Lab2/Lab2.2.c:49-63 | a forked split lets both halves go on at once, a sequential one lets the right half start exactly when the left one has finished |
| `ForkJoin.MergeStartsOnSortedHalves` | Lab2/Lab2.1.c:61-66 | a merge starts only when both halves are sorted and nobody can change them any more |
| `ForkJoin.MemorySafe` | Lab2/Lab2.2.c:13-39 | no merge ever reaches outside the array or the copies of its halves: a thread waits for the mutex or for other threads only |
| `ForkJoin.SomeoneCanStep` | Lab2/Lab2.2.c:47-68 | until the sort is finished some thread can step |
| `ForkJoin.ForkJoinIsSequential` | Lab2/Lab2.2.c:41-70 | for every threshold and every interleaving the sort ends after a number of steps that depends on the length alone, with the array of the sequential sort |
| `ForkJoin.NestingIsLogarithmic` | Lab2/Lab2.2.c:48-57 | in every state of every run the nesting depth d of the halves, threads or calls, satisfies 2^(d-1) < length |
| `ReadersWriters.RunInv` | homework/reader_writer.c:80-128 | the invariant of both locks and both counters holds after every schedule |
| `ReadersWriters.Exclusion` | homework/reader_writer.c:85-125 | never two writers, nor a reader with a writer, in the critical region; the library is held exactly while one writer is inside or the group of readers owns it |
| `ReadersWriters.StableWhileReading` | homework/reader_writer.c:97-98 | what a reader reads cannot change while it is inside |
| `ReadersWriters.ReadersTogether` | homework/reader_writer.c:85-92 | while a reader is inside and the count's lock is free, another reader that asks gets inside by its own steps alone, and both are inside |
| `ReadersWriters.WriterWaits` | homework/reader_writer.c:115-125 | a writer that asks has to wait exactly while someone writes or the readers' group owns the library |
| `ReadersWriters.ReaderWaits` | homework/reader_writer.c:85-105 | a reader has to wait exactly while another one holds the count's lock, or, as the first, while someone writes |
| `ReadersWriters.SomeoneCanStep` | homework/reader_writer.c:80-128 | until all are finished some thread can step, also while the first reader waits for the library holding the other lock |
| `ReadersWriters.EveryMaximalRunFinishes` | homework/reader_writer.c:80-128 | every run is finite, and one that cannot go on has finished all threads, freed both locks and lost no increment |

## Left out

- Input and output, `sleep`, `rand`, `mmap`, `open`, argument parsing and thread creation failures: the environment. A random draw of an office is a free choice of the schedule.
- `OfficeBounds.RunLength`: counts runs without spurious wakeups; with them a run has no bound. What `OfficeWakeups.SurvivesWakeups` lists survives them; the results on runs that cannot go on, and on the step that settles a student's office and course, are stated without.
- `MergeSorting.CopyOut`: copies exactly `n1` and `n2` elements, and the merge reads no others; the source's loops (`Lab2/merge.c:12-15`) go on to copy one more than the temporary arrays hold.
- `OfficeMessages.InitialInv`: the ticket counters of the urgent queues start at zero, which the source never sets (`Lab3/Lab3.c:102`).
- `BarrierSort.ThreadsIsCeilLog10`: exact; the rounding of the floating-point `log10` is not modelled.
- The comparison and exchange of two neighbours is one step in `BarrierSort`: `RegionOwned` and `BordersAreExclusive` show that no other thread can touch them meanwhile. The same holds for a message stored and its broadcast, which are inside the queue's mutex.
- A signal handler or the end of the process after the terminating signal of the office system: the model lets the remaining threads go on.
- An office system with no student at all: nobody ever issues the terminating signal there.
- `FileTable.Kernel.FileDup`: takes `ref >= 1` as precondition, as does `FileClose`; the panics themselves are outcomes of `FileRefs.Next`, and shown unreachable.
- `FileTable.Kernel.PipeAllocate`: pipealloc is taken to give two new files or nothing; `pipe.c` is not part of this model. Neither are the `readable` and `writable` flags that open sets, nor user memory.
- `FileWriting.Disk.WriteI`: writei takes all of a piece, a part or nothing, for reasons of its own but never leaving a hole; `fs.c` and `log.c` are not part of this model. Concurrent writers are not modelled, and the result of writing to a pipe is a parameter.
- The effect of `fork` and `exit` on descriptors: `proc.c` is not part of this model. Runs start in any consistent state, so in any state that forks may have left.
- Name truncation, full disks, inode freeing, several devices beyond the test for one, current directories and open but removed directories: each call on the namespace is one step on absolute paths.
- `sys_mknod`, `sys_chdir`, `sys_exec`, `sys_read` and `sys_fstat`: single branches around functions that are not shown.
- The semaphores and conditions of the kernel (`Lab6/xv6-semaphores/file.c:65-134` and from 269 on): their meaning rests on `sleep` and `wakeup`, which are not shown.
- Lab1, `Lab2/Lab2.3_1.c`, `Lab2/Lab2.3_2.c`, Lab7 and the exam exercises: weaker forms of what is modelled, or input and output plumbing.
