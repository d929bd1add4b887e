# Verified models of the operating-systems exercises

Five programs of the repository contain protocols or array algorithms with hard invariants.
This project models them in Dafny and proves what they keep, what they deliver and, where the
code falls short, exactly when.  `dafny verify dfyconfig.toml` checks everything.

| file | models |
|---|---|
| `PrintBuffer.dfy`, `PrintSchedule.dfy`, `SharedBuffer.dfy` | the bounded print buffer of cw8: clients and printers around a ring under three semaphores |
| `Monitor.dfy`, `MonitorProgress.dfy`, `Workshop.dfy` | the Santa and reindeer monitor of cw10: one mutex, two condition variables, a counter |
| `Chat.dfy`, `ChatInvariant.dfy`, `ChatIdentity.dfy`, `ChatOrder.dfy`, `ChatRuns.dfy`, `ChatBroadcast.dfy`, `ChatProgress.dfy`, `ChatClosing.dfy`, `ChatLife.dfy`, `ChatServer.dfy` | the message-queue chat of cw7 (POSIX version): server table, bounded queues, two-process clients |
| `Grid.dfy`, `Patterns.dfy`, `Life.dfy` | the parallel Game of Life of cw9: neighbour count, update, worker ranges, buffer swap |
| `Reversal.dfy`, `Files.dfy` | the reversing file copies of cw3, and what they do to a picture's lines |
| `Sums.dfy`, `Modulo.dfy` | totals over processes and remainders, used by the others |

**How the protocols are modelled.**  Each protocol is a step system on values: every process has
a program counter that names a source line, and one move executes one line (one byte of a
`strcpy`).  A run is any interleaving.  Beside it stands a class whose fields are the program's
shared variables and whose methods are its lines as updates in place; each method is proved to
make exactly the step of the step system.  A schedule played on the class takes it along a run of
the step system (`PrintSchedule.AfterIsRun`, `WorkshopMemory.PlayedIsRun`, `ChatMemory.PlayedIsRun`),
and each class has a `Run` whose contract states the main results on its own fields.  Fields marked
as history record what happened and never influence a move.

**Numbers.**  Print buffer: any capacity of at least one and any number of clients and printers
(ten, five and three in the program, `Configured`).  Monitor: any number of reindeers, which is
also the threshold (nine in the program), and four deliveries.  Chat: ten table entries, queues
of ten, any number of client processes over time.  Life: a 30 by 30 grid, any number of threads.

**Where the code does less than one would hope**

* cw10: a reindeer released in one round that has not re-checked the counter when another one
  gets the mutex at line 23 parks again without being counted, and no further delivery ever
  happens.  `MonitorProgress.CanDeliverUnlessLost` says that exactly the states that are not lost can
  reach the next delivery, `MonitorProgress.HowToGetLost` that overtaking a released reindeer is the only
  way to get lost, and `MonitorProgress.LostIsReachable` gives a run that does, for two or more reindeers.
* cw7: an interrupt between the fork and the child's first look at its flag (client.c lines 91-100)
  makes the child exit at once.  The parent's read at line 128 then returns nothing, and the parent
  goes on with whatever its variable holds as its id.  `ChatIdentity.OwnIds` and
  `ChatIdentity.OwnIdIff` say that a client is sure of its own id exactly without this interrupt,
  in every run; `ChatRuns.WildStop` is a run in which the server then looks outside its table at
  server.c line 79, `ChatRuns.StolenSlot` one in which another client loses its slot at line 94.
  `ChatInvariant.RunInv` shows that the invariant, by which ids name their owners, holds at the end
  of a run if and only if no parent's read returned nothing.  The broadcast does not depend on it:
  it goes by the id in a text, and in that form the order of everybody's mail holds in every run
  (`ChatBroadcast.RunBroadcasts`).
* cw7: an interrupted child looks at its flag again only after its next message, which may come
  before its goodbye.  Ten more broadcasts then fill its queue and the server never finishes the
  next one.  `ChatProgress.ServerGetsOn` says when exactly the server gets on,
  `ChatProgress.BlockedIsReachable` gives a run that blocks, `ChatProgress.NeverBlockedOn` shows
  that only clients whose child leaves before its goodbye can cause it, and
  `ChatProgress.RunNeverBlocks` and `ChatProgress.AllIsDelivered` prove progress and delivery, with
  any input and interrupts at any time, for children that do not.
* cw7: a child that takes its goodbye before it is interrupted waits for a message that never comes,
  and its parent never gets past line 170.  `ChatClosing.WhoIsStranded` says that these are the
  stranded children, `ChatClosing.ClosesIff` that all other waiting clients can still close.
* cw7: the search for a free entry has no bound.  `ChatInvariant.OverrunIff` says that an INIT runs
  off the table exactly when all ten entries are taken, and `ChatRuns.CanOverrunIff` that this can
  happen exactly with more than ten clients.
* cw9: `ceil` is applied to an integer quotient, so the range size is the floor.  Unless n divides
  900 some cells are never written (`ParallelLife.FullCoverage`, `ParallelLife.CorrectIffDivides`).
* cw3: the guard of the block copy never becomes false.  The output is complete from iteration
  ceil(length / 1024) on and stays so (`Reversal.BlocksDone`, `Reversal.BlocksStay`).

## Model

| member | source | states |
|---|---|---|
| PrintBuffer.StepInv | cw8/client.c:36-55 | every line of either loop, executed by any process, keeps the invariant: token counts, cursors, ring contents, local variables, what was composed, no task held twice |
| PrintBuffer.RunInv | cw8/printers.c:53-97 | the invariant holds at the end of every run from the set-up state |
| PrintBuffer.MutualExclusion | cw8/client.c:39-51 | at most one process is between `sem_wait(used)` and `sem_post(used)` |
| PrintBuffer.RunConservesTokens | cw8/client.c:38-52 | in every run the capacity equals `empty` plus clients between 38 and 52 plus `full` plus printers between 75 and 86; occupancy equals `full` plus unposted stores plus unread tokens and stays within the capacity; all accesses are in bounds |
| PrintBuffer.CursorsMeasureOccupancy | cw8/printers.c:80 | `in` minus `out` equals the occupancy modulo the capacity, pending bumps counted |
| PrintBuffer.NoOverwrite | cw8/client.c:48 | the slot a client is writing holds no unread task |
| PrintBuffer.FetchesOldest | cw8/printers.c:79 | at every byte of its copy a printer has a prefix of the oldest unread task |
| PrintBuffer.StepRefinesFifo | cw8/client.c:47-49 | every step is a put into a bounded FIFO queue that is not full, a get of its oldest task by the stepping printer, or invisible |
| PrintBuffer.RunIsFifo | cw8/printers.c:75-86 | in every run the tasks taken are a prefix of the tasks stored, those a prefix of the tasks composed with at most one more in progress, and each printer holds one complete stored task, no two the same |
| PrintBuffer.RunPrints | cw8/printers.c:79-99 | in every run each fetched task is printed once or still held by the printer that fetched it |
| PrintSchedule.RunStoresChoices | cw8/client.c:41-48 | in every run the tasks stored, and so those fetched, are in order what the clients made up in their turns at lines 41-47, up to one on its way into the ring |
| PrintSchedule.ClientStores | cw8/client.c:38-52 | a client with a free slot and nobody in the critical section stores any task it makes up, on its own, and is back at the top |
| PrintSchedule.PrinterPrints | cw8/printers.c:75-99 | a printer with a stored task and nobody in the critical section fetches the oldest one and prints it, on its own |
| PrintBuffer.WhoWaits | cw8/client.c:38-39 | a client waits at 38 exactly when every slot has its token elsewhere, a printer at 75 exactly when every stored task is unposted or claimed, either at `used` exactly when someone is in the critical section, and nobody anywhere else |
| PrintBuffer.NeverStuck | cw8/client.c:38-52 | with a client and a printer some process is enabled in every state of the invariant |
| PrintBuffer.RunNeverStuck | cw8/printers.c:75-86 | no run is stuck |
| PrintBuffer.ProgramNeverStuck | cw8/buffer.h:6 | the same for ten slots, five clients and three printers |
| PrintBuffer.StuckIsDrained | cw8/printers.c:75-99 | with idle clients, printers stop only when everything stored is fetched and printed and all tokens are back |
| PrintBuffer.PrintersDrain | cw8/printers.c:71-99 | printer-only runs are bounded by a decreasing measure, and one that cannot go on has fetched and printed every stored task |
| SharedMemory.SharedBuffer.constructor | cw8/printers.c:53-61 | the set-up puts the shared memory in an initial state of the protocol |
| SharedMemory.SharedBuffer.ClientLine | cw8/client.c:38-52 | a line of the client loop on the shared memory is exactly the protocol's step |
| SharedMemory.SharedBuffer.StoreByte | cw8/client.c:48 | one byte of the copy into the slot, the terminator ends it |
| SharedMemory.SharedBuffer.PrinterLine | cw8/printers.c:75-99 | a line of the printer loop is exactly the protocol's step |
| SharedMemory.SharedBuffer.FetchByte | cw8/printers.c:79 | one byte of the copy out of the slot, the terminator ends it |
| SharedMemory.SharedBuffer.Run | cw8/client.c:33-60 | any schedule of processes takes the shared memory where it takes the protocol, and leaves its fields with the tasks in FIFO order, composed as the schedule says, every fetched one printed or held, every slot accounted for and the occupancy within the capacity |
| PrintSchedule.AfterInv | cw8/printers.c:68-105 | wherever a schedule leads, the invariant holds |
| PrintSchedule.AfterIsRun | cw8/printers.c:68-105 | the turns of a schedule that were not blocked make a run of the protocol |
| PrintSchedule.RunIsAfter | cw8/printers.c:68-105 | and every run is that of a schedule |
| Monitor.StepInv | cw10/zad10.c:17-67 | every line of either thread function, and every spurious wake-up, keeps the invariant |
| Monitor.RunInv | cw10/zad10.c:17-67 | so does every run |
| Monitor.CounterIsArrived | cw10/zad10.c:24-34 | the counter is the number of distinct reindeers that arrived since the last reset, all still between line 24 and the end of the wait loop; arrivals equal resets plus one for each of them |
| Monitor.SantaNeedsAll | cw10/zad10.c:47-61 | Santa leaves his wait loop only when every reindeer is back |
| Monitor.NoLostWakeup | cw10/zad10.c:27-30 | with the mutex free and Santa asleep the counter is below the threshold |
| Monitor.RunSafe | cw10/zad10.c:44-65 | all of this, and exactly four deliveries when Santa is done, in every run of the program |
| Monitor.WhoWaits | cw10/zad10.c:23-48 | a reindeer waits exactly in the wait set or for a mutex that someone holds, Santa likewise or when he is done |
| Monitor.WakingForNothing | cw10/zad10.c:32-34 | a parked reindeer may wake at any time without reason, re-checks a positive counter, and is parked again with nothing changed |
| Monitor.SantaWakingForNothing | cw10/zad10.c:47-49 | so may Santa while the queue is not full |
| Monitor.NoArrivalWithoutVacation | cw10/zad10.c:19-24 | between two arrivals a reindeer is on vacation, in every run |
| MonitorProgress.LostForever | cw10/zad10.c:32-34 | once a released reindeer will re-check a positive counter, no move changes that and no delivery follows |
| MonitorProgress.HowToGetLost | cw10/zad10.c:23 | a move gets lost if and only if a reindeer takes the mutex at line 23 while a released one is still in the wait loop |
| MonitorProgress.MeasureStep | cw10/zad10.c:19-65 | until the next delivery every move but a spurious wake-up decreases the measure, a spurious one adds at most two |
| MonitorProgress.DeliveryIsDue | cw10/zad10.c:19-65 | without overtaking, the number of moves before the next delivery is bounded, apart from spurious wake-ups |
| MonitorProgress.ProgramDelivers | cw10/zad10.c:44-65 | without overtaking, a run of the program has at most 50 moves for each reindeer and 50 more, plus three for each spurious wake-up, and can go on until the fourth delivery |
| MonitorProgress.NotStuck | cw10/zad10.c:19-65 | a state that is not lost has an enabled move, other than a spurious wake-up, that does not get lost |
| MonitorProgress.CanDeliverUnlessLost | cw10/zad10.c:44-65 | the next delivery can be reached if and only if the state is not lost |
| MonitorProgress.LostIsReachable | cw10/zad10.c:32-34 | with two or more reindeers a run gets lost after the first delivery |
| MonitorProgress.AllDeliveriesReachable | cw10/zad10.c:44 | a state that is not lost can still reach the fourth delivery |
| WorkshopMemory.Workshop.ReindeerLine | cw10/zad10.c:21-36 | a line of the reindeer thread on the globals is exactly the protocol's step |
| WorkshopMemory.Workshop.SantaLine | cw10/zad10.c:44-64 | a line of Santa's thread is exactly the protocol's step |
| WorkshopMemory.Workshop.WakeEveryone | cw10/zad10.c:63 | the broadcast wakes all reindeers in the wait set and no others |
| WorkshopMemory.Workshop.Run | cw10/zad10.c:76-86 | any sequence of moves takes the globals where it takes the protocol, with the counter at the number of reindeers that arrived since the last reset and no more than four deliveries |
| WorkshopMemory.PlayedAllInv | cw10/zad10.c:17-67 | and leaves the invariant in force |
| WorkshopMemory.PlayedIsRun | cw10/zad10.c:17-67 | the moves that were possible at their turn make a run of the protocol |
| Chat.FirstVacant | cw7/server.c:50-53 | the first free entry of the table, or its length when there is none |
| ChatInvariant.StepInv | cw7/server.c:45-99 | every step of server, parents and children keeps the invariant, except a read at client.c line 128 that returns nothing |
| ChatInvariant.RunInv | cw7/client.c:100-170 | the invariant holds at the end of a run if and only if no parent's read returned nothing |
| ChatInvariant.IdsNameTheirOwner | cw7/client.c:110-161 | under the invariant every id of a registered client, in its parent, in its pipe, in an IDENTIFIER in its queue, or in a MESSAGE or STOP on its way, is the slot of that client's queue; clients' slots are distinct |
| ChatInvariant.SkipsOnlySender | cw7/server.c:72 | under the invariant the broadcast loop skips a slot if and only if it is the sender's |
| ChatInvariant.StopFreesItsSender | cw7/server.c:79-94 | under the invariant a STOP frees its sender's slot, and every other client keeps the slots it had |
| ChatInvariant.OverrunIff | cw7/server.c:51-53 | the search for an INIT runs off the table if and only if all ten entries are taken |
| ChatInvariant.OverrunNeedsEleven | cw7/server.c:51-53 | nothing else takes the server out of its table, and it takes ten distinct registered clients and an eleventh |
| ChatRuns.CanOverrunIff | cw7/server.c:49-60 | as long as parents read their ids, a run off the table exists if and only if there are more than ten clients |
| ChatIdentity.OwnIds | cw7/client.c:91-128 | in every run, whatever ids others use: the server's accesses are in bounds until it halts, a client is sent one IDENTIFIER, first of all, with the slot it was registered in; a parent past its read holds that id if its child was not interrupted before its first look at the flag, and otherwise its child received nothing |
| ChatIdentity.OwnIdIff | cw7/client.c:128 | at any point of any run a parent at its read is sure to get its own id if and only if its child has not been interrupted so |
| ChatIdentity.CalmRun | cw7/client.c:100-128 | without such interrupts no read returns nothing, the invariant holds, and every registered client that holds an id owns that slot |
| ChatRuns.WildStop | cw7/server.c:79 | one client is enough for a run in which a STOP names any place outside the table |
| ChatRuns.StolenSlot | cw7/server.c:94 | two clients are enough for a run in which one, chatting under its own id, loses its slot to the other's STOP |
| ChatRuns.FailsIff | cw7/server.c:60-65 | the server gives up exactly over the INIT of a client that has already removed its queue, with room for it |
| ChatRuns.GoneClient | cw7/client.c:128-177 | one client whose parent reads nothing is enough for that |
| ChatLife.SafeIff | cw7/client.c:100-128 | a parent at its read is safe from all interrupts to come if and only if its child has looked at its flag and found it set |
| ChatLife.WhenParentsWait | cw7/client.c:70-170 | a parent waits exactly to send INIT or STOP to a full queue, to read from an empty pipe with a live child, to reap a live child, or when it is closed |
| ChatLife.WhenChildrenWait | cw7/client.c:100-147 | a child waits exactly for a message, and a chatting parent can send any text that fits in the queue |
| ChatLife.InterruptsAnyTime | cw7/client.c:15-17 | a chatting parent can be interrupted in any state and then stops under its id, and so can a live child |
| ChatLife.CanLeave | cw7/client.c:159-178 | from every state with at most ten clients whose ids name their owners and whose children attend, an interrupted chatting client can get its goodbye as its last message, with its slot free, and close |
| ChatOrder.StepOrdered | cw7/server.c:45-99 | every step of every process keeps, whatever ids are in use: a client has the table entry of its registration and no other, and its mail is its identifier, the texts of its registration with other ids, and at the end its goodbye |
| ChatOrder.RunOrdered | cw7/server.c:45-99 | so does every run |
| ChatBroadcast.BroadcastInLogOrder | cw7/server.c:70-76 | in every reachable state the texts ever sent to a client are those with other ids that the server processed during its registration, once each and in processing order; the child has shown a prefix of its mail |
| ChatBroadcast.BroadcastToOthers | cw7/server.c:70-76 | as long as ids name their owners these are the texts of the other clients |
| ChatBroadcast.ClientsAgree | cw7/server.c:70-76 | in every reachable state any two clients get the stretch they both saw as one consecutive part of their mail and agree on the order of their common texts |
| ChatBroadcast.ClientsAgreeOnOthers | cw7/server.c:70-76 | the same by sender, as long as ids name their owners |
| ChatBroadcast.RunBroadcasts | cw7/client.c:130-151 | in every run what is typed at a client is what it wrote, that is what the server logged of it plus what is still on its way, in order, and its own mail is the texts with other ids of its registration in log order; these are the other clients' texts unless some read returned nothing |
| ChatProgress.UnlessBlocked | cw7/client.c:104 | in every reachable state: unless the server is blocked for good or has halted, some delivery is possible until nothing is on its way |
| ChatProgress.StayListening | cw7/client.c:100-123 | a child that is not interrupted before its first look, and does not leave before its goodbye, keeps listening under every move of anyone |
| ChatProgress.StopIsGoodbye | cw7/client.c:116 | a STOP that reaches a client is its goodbye and the last of its mail |
| ChatProgress.NeverBlockedOn | cw7/server.c:73 | in every run, whatever the other clients do, the server is never stuck on the queue of a client whose child stays until its goodbye |
| ChatProgress.NeverDeadlocked | cw7/client.c:147 | with children that listen the server is not blocked, and some delivery is possible until every queue is empty and every client that asked has its id, unless the server halted |
| ChatProgress.RunNeverBlocks | cw7/client.c:100-170 | in every run whose children stay until their goodbye, with joins, texts, interrupts and stops at any time: the server is never blocked, and something can be delivered or everything is, unless more than ten clients took it off its table |
| ChatProgress.BlockedForever | cw7/server.c:73 | a server that sends to a full queue whose reader has left stays there, whatever the clients do and whatever ids they hold |
| ChatProgress.ServerGetsOn | cw7/server.c:66-87 | in every reachable state a busy server can get on with its work if and only if it is not blocked so |
| ChatProgress.BlockedIsReachable | cw7/client.c:100-125 | a run in which a child leaves early ends with the server blocked |
| ChatProgress.DeliveryWorks | cw7/server.c:66-87 | every delivery decreases a weighted count of queued messages and remaining sends |
| ChatProgress.AllIsDelivered | cw7/client.c:100-123 | without new input and with children that stay until their goodbye, runs are bounded, and one that cannot go on has emptied every queue and given every client its id, unless the server halted, for which it takes more than ten clients where ids name their owners |
| ChatClosing.StepStranded | cw7/client.c:100-125 | a child is left waiting for a message that never comes from the moment it takes its goodbye uninterrupted, for good, and in no other way |
| ChatClosing.WhoIsStranded | cw7/client.c:170 | in every run exactly the children that took their goodbye uninterrupted are stranded, and none of their parents has got past `waitpid` |
| ChatClosing.ClosesIff | cw7/client.c:170 | at any point of any run a client at `waitpid` that has left, or has a message to receive, can still close if and only if its child is not stranded |
| ChatClosing.DeliveredCloses | cw7/client.c:170 | once everything is delivered exactly the waiting clients whose child has exited close |
| ChatMemory.ChatSystem.FindVacant | cw7/server.c:50-53 | the search loop on the array finds the first free entry |
| ChatMemory.ChatSystem.ServerLine | cw7/server.c:45-99 | a step of the server on its table and queues is exactly the protocol's step |
| ChatMemory.ChatSystem.SayGoodbye | cw7/server.c:87-94 | the goodbye is sent and the slot freed |
| ChatMemory.ChatSystem.FirstLook | cw7/client.c:100 | a child's first look at its flag is exactly the protocol's step |
| ChatMemory.ChatSystem.ChildLine | cw7/client.c:104-123 | a child's receive is exactly the protocol's step |
| ChatMemory.ChatSystem.ParentLine | cw7/client.c:70-170 | a parent's line, the read that returns nothing included, is exactly the protocol's step |
| ChatMemory.ChatSystem.Run | cw7/server.c:45-99 | any schedule from the start takes the program where it takes the protocol, with the table in bounds, every text accounted for, mail by id in log order and every client not interrupted early under its own id; unless some read returned nothing, mail by sender in log order and no run off the table with at most ten clients |
| ChatMemory.PlayedIsRun | cw7/server.c:45-99 | the moves that were possible at their turn make a run of the protocol |
| Grid.NeighboursAreCounted | cw9/grid.c:51-71 | the count over the eight clipped places is the number of live cells adjacent in the grid |
| Grid.LivesByRule | cw9/grid.c:73-86 | the rule counts live neighbours in the grid: three make a cell live, two keep it alive, nothing else does |
| Grid.LifeRule | cw9/grid.c:73-86 | a cell of the next generation is 1 if it has three live neighbours in the grid, or is alive and has two, and 0 otherwise |
| Grid.IsAlive | cw9/grid.c:48-87 | the double loop decides whether the cell lives by this rule |
| Grid.UpdateGrid | cw9/grid.c:89-98 | the destination becomes the next generation of the source |
| Grid.LightCone | cw9/grid.c:52-71 | a cell after k generations depends only on the cells within distance k |
| Grid.GenerationsCommute | cw9/grid.c:51-98 | the generations commute with transposition, both reflections and all their compositions |
| Grid.HalfTurn | cw9/grid.c:89-98 | both reflections together turn the grid by 180 degrees |
| Grid.SymmetriesMove | cw9/grid.c:89-98 | which cell each of the three symmetries brings where |
| Patterns.PatternsRepeat | cw9/grid.c:73-86 | alone in the grid a block of four is still for ever, and a blinker that has room to turn has period two |
| ParallelLife.ArgsAreProper | cw9/life.c:63-71 | the workers' ranges are in bounds and disjoint |
| ParallelLife.CoveredIsOwned | cw9/life.c:63-71 | exactly the cells below n times the floor of 900 / n have a worker, and only one |
| ParallelLife.FullCoverage | cw9/life.c:63 | exactly the last 900 % n cells have no worker, so every cell has one if and only if n divides 900 |
| ParallelLife.SetUpArgs | cw9/life.c:66-71 | the set-up loop computes these ranges |
| ParallelLife.WriteKeepsRunning | cw9/life.c:25-30 | a worker's next write advances its own range and disturbs no other, in any interleaving |
| ParallelLife.PassEnds | cw9/life.c:25-31 | when all workers are at their ends, owned cells hold the next generation and the rest is untouched |
| ParallelLife.ParallelPass | cw9/life.c:21-33 | one complete pass under any scheduling leaves exactly that in the background |
| ParallelLife.RunRounds | cw9/life.c:83-101 | k rounds of pass and swap follow the specification, and the two buffers have exchanged their roles exactly if k is odd |
| ParallelLife.RoundSwaps | cw9/life.c:98-100 | after a round the background is the former foreground, and the foreground shows its next generation where there is a worker and what the background held where there is none |
| ParallelLife.UncoveredAlternates | cw9/life.c:98-100 | a cell without a worker shows what the two buffers first held there by turns |
| ParallelLife.RoundsAreGenerations | cw9/life.c:83-101 | if n divides 900 the foreground after k rounds is the k-th generation, whatever the background first held |
| ParallelLife.CorrectIffDivides | cw9/life.c:63 | this holds for all grids and rounds if and only if n divides 900 |
| Reversal.LoopHead | cw3/zad1.c:57-84 | at every loop head the bytes left are the length less the blocks copied, and the output is the reverse of the suffix consumed |
| Reversal.BlocksDone | cw3/zad1.c:62-84 | the output is the whole file reversed exactly from iteration ceil(length / 1024) on, for every length |
| Reversal.BlocksStay | cw3/zad1.c:62 | later iterations change neither output nor cursor |
| Reversal.ReverseTwice | cw3/DziwakNorbert-cw03/flipper.c:5-17 | copying twice restores the file |
| Reversal.ReverseRotates | cw3/DziwakNorbert-cw03/flipper.c:5-17 | splitting the output at newlines gives the input's lines in reverse order, each reversed |
| Reversal.RotatedPicture | cw3/DziwakNorbert-cw03/flipper.c:5-17 | the reversed file is the rotated picture joined at newlines again, byte for byte |
| Reversal.LinesHaveNoNewline | cw3/DziwakNorbert-cw03/flipper.c:5-17 | no line of the split contains a newline |
| Reversal.LinesAreUnique | cw3/DziwakNorbert-cw03/flipper.c:5-17 | lines without newlines are recovered from the text they make |
| Files.ReverseCopy | cw3/zad1.c:38-50 | the byte-at-a-time copy appends the reverse of the file |
| Files.ReverseBuffer | cw3/zad1.c:75-79 | the swap loop reverses the front of the buffer and leaves the rest |
| Files.CopyBlock | cw3/zad1.c:64-83 | one iteration reverses the last block of what is left, and the cursor ends at the bytes left |
| Files.BlockCopy | cw3/zad1.c:53-84 | k iterations leave cursor and output as specified; they agree with the simple copy exactly when k is at least ceil(length / 1024) |
| Files.FlipTwice | cw3/DziwakNorbert-cw03/flipper.c:53 | one copy rotates the picture, a second one restores it |

## Left out

- Print buffer: the loop at cw8/printers.c lines 91-99 that prints a fetched string, which touches nothing shared, is one step; the cursor bump is one step, as it happens under `used`; the `printf` at cw8/client.c line 45, which reads the string before its terminator is set, is not modelled.
- The System V versions cw8/printersv.c and cw8/clientv.c: the same protocol with semaphores 0, 1 and 2.
- Monitor: Santa's work at cw10/zad10.c lines 51-60 is one step under the mutex; the cancellation of the reindeers after the last delivery and the clean-up are not modelled; `sleep` is any delay.
- MonitorProgress.DeliveryIsDue: assumes that no reindeer takes the mutex at line 23 while a released one is in the wait loop, which is what the vacation of at least five seconds stands for; without the assumption the statement is false (MonitorProgress.LostIsReachable).
- Chat: the server's own SIGINT and shutdown, a SIGINT before the handler is installed at cw7/client.c line 85, which kills the client, failing system calls other than the `mq_open` of a queue already unlinked (cw7/server.c line 61), `scanf`, queue names and priorities, which are all equal.  Interrupted calls are restarted, as `signal` arranges, so a parent interrupted in its read goes on with it, and a child interrupted in `mq_receive` looks at its flag after the next message.
- ChatInvariant.StepInv: says nothing of a read that returns nothing, after which the invariant is false for good (ChatInvariant.RunInv).
- ChatProgress.RunNeverBlocks: assumes children that stay until their goodbye, as does ChatProgress.AllIsDelivered; without that the server can block for good (ChatProgress.BlockedIsReachable), and ChatProgress.ServerGetsOn says when exactly.
- ChatClosing.ClosesIff: does not say whether a client that is still registered and has an empty inbox can close, which depends on the server getting as far as its goodbye (ChatProgress.ServerGetsOn).
- The System V chat (cw7/serverv.c, cw7/clientv.c): a duplicate protocol.
- Life: signals, sleeping and drawing; each round is assumed to have one complete pass between the signals and the swap, and the foreground not to change during a pass.  `ParallelPass` covers any number of passes before the first round through the arbitrary background of `RoundsAreGenerations`.  n must be positive, as line 63 divides by it.
- File copies: command lines, opening and closing files, and the directory traversal of the flipper.  A stream is its bytes and a position; `fwrite` is modelled at the end of the receiving file, where the copies use it.
- cw11, cw6, cw5, cw4, cw2, cw1: socket chat, integrals, signal and process demonstrations, a Collatz loop and a countdown, which have little state or no clean invariant.
