# Verified models of four simulator cores

The project models the state-heavy parts of a full-system memory simulator in Dafny and proves what
they are for.

**HybridSim's DRAM cache** (`Hybrid*.dfy`, `InOrderMemory.dfy`). A lock-up-free, set-associative
page cache in front of flash. `HybridController` says what each operation does to the state;
`HybridLocks` to `HybridReplies` build the invariant; `HybridRuns` lets an environment choose the
order of requests, prefetches, clock cycles, memory answers and critical lines, and states the
theorems: the cache behaves as one flat memory, no assertion can fail, every request is answered
exactly once, no wake-up is lost, the work left is bounded, and once it is done every request has been
answered. `HybridRecency` says what the timestamps mean: the victim is the line least recently used.
`HybridSystem` is the imperative form, a class whose methods and loops are proved to do what
the functions say; in `HybridWorld` it runs between callers and memories, and no call fails. The memories are seen through one contract: they may
serve requests in any order, except that requests to one address are served in the order submitted.

**DRAMSim2's scheduler and ranks** (`Dram*.dfy`). The controller's table of bank states and the
ranks' own tables are related by a simulation, so a rank never refuses a command. Over whole runs:
no stranded column command, the distances between commands of a bank, of a rank and of two ranks, the
four-activate window, order per row, conservation of reads, the data buses, and when a row is closed. A waiting refresh goes first, and once
arrivals stop everything accepted is issued and every read answered in a bounded number of cycles,
whatever picks are made (`DramLiveness`, `DramReturns`; `DramLimits` shows why they ask what they ask). The commands are those of
section 3.1 and chapter 4 of JESD79-3F. `DramCommandQueue` and `DramController` hold the imperative
forms of `CommandQueue`, `Rank` and `MemoryController`, and `DramChannel` puts them together: a cycle of
the objects is a cycle of a run. `DramCollision` builds the runs that show the condition on the data bus
to be exact, for writes and for reads. The timing parameters stay symbolic; `DramBanks.Sane` lists what
is asked of them.

**Live migration of RAM in QEMU** (`Migration*.dfy`). The byte stream with its two page forms and
continued records, the sender's round-robin scan of dirty pages and its stages, the receiver, and the theorem that
the destination ends with the source's memory however guest writes interleave and however the
destination orders its blocks.

**Arithmetic cores** (`AddressMapping.dfy`, `ClockDomain.dfy`). The seven address mappings, the
ceiling logarithm, and the clock-domain crosser.

An operation that the source would end with an assertion, an abort or an error exit yields `Abort`,
or returns `false`. Fields called auxiliary in a comment are read by no operation.

## Model

| member | source | states |
|---|---|---|
| `HybridRuns.RefinesFlatMemory` | HybridSim/HybridSystem.cpp:546-1247 | In every run, every callback carries the caller's own address, and a read outside 0xE000_0000 to 0xFFFF_FFFF returns the latest earlier-accepted write to its burst (or the initial contents) |
| `HybridRuns.QueuedOrDropped` | HybridSim/HybridSystem.cpp:447-507 | A request to 0xE000_0000 up to 0xFFFF_FFFF is called back at once and goes no further; every other one joins the queue at its burst and is not called back yet |
| `HybridRuns.RemapInjective` | HybridSim/HybridSystem.cpp:452-487 | Two different addresses outside that range stay different after the remap |
| `HybridRuns.LockUpFree` | HybridSim/HybridSystem.cpp:288-352 | A queued request is held up only by an operation about its own burst, a miss about its page, or a set whose lines are all in use; a scan takes one that is not held up |
| `HybridRuns.NeverAborts` | HybridSim/HybridSystem.cpp:546-1415 | From every reachable state every enabled step succeeds: no assert or abort of the controller or its logger is reachable |
| `HybridRuns.ExactlyOnce` | HybridSim/HybridSystem.cpp:447-507 | Waiting, under way and called back partition the accepted requests, and no request is called back twice; when the memories, the send queues and the scan are at rest, the queue and the operations are empty and every request has been called back |
| `HybridRuns.EveryRequestAnswered` | HybridSim/HybridSystem.cpp:1427-1474 | From every reachable state a run without further arrivals, no longer than the work that is left, brings the system to rest with every accepted request called back |
| `HybridRuns.WorkIsBounded` | HybridSim/HybridSystem.cpp:255-427 | In every continuation of a run the events that do something (a served request, a cycle with something to look up, scan or send) are at most the work that is left plus a fixed amount for each arrival: nothing keeps the controller busy for ever |
| `HybridRuns.QuiescentIdle` | HybridSim/HybridSystem.cpp:288-360 | At rest every lock is free, so by the wake-up invariant the queue is empty too |
| `HybridProgress.OpWaits` | HybridSim/HybridSystem.cpp:833-868 | Every operation under way waits for a read; with the invariant that every awaited read is on its way, none is forgotten |
| `HybridProgress.MissAsks` | HybridSim/HybridSystem.cpp:873-1022 | A miss asks the flash for every chunk, and the DRAM for every burst of a dirty victim, that it then waits for |
| `HybridProgress.VictimSettles` | HybridSim/HybridSystem.cpp:908-958 | The last part of a victim leaves nothing expected under its line, and nothing else becomes expected |
| `HybridProgress.LookedWork` | HybridSim/HybridSystem.cpp:546-871 | A lookup uses up more work than the requests it makes |
| `HybridRuns.NoLostWakeup` | HybridSim/HybridSystem.cpp:288-360 | pending_count is the queue length plus the pending addresses; with check_queue off nothing in the queue could be dequeued |
| `HybridRuns.PagesAreMisses` | HybridSim/HybridSystem.cpp:1664-1776 | pending_pages holds exactly the pages and valid victims of the misses in flight, each owned by one miss; the miss entry counts its outstanding reads |
| `HybridRuns.SetCountersExact` | HybridSim/HybridSystem.cpp:1725-1803 | In every reachable state a set counter is the sum of the lock counts of its lines and at most the set size |
| `HybridRecency.EvictsLeastRecent` | HybridSim/HybridSystem.cpp:718-775 | A lookup that misses always finds an unlocked line no transaction uses, and no unlocked line of the set was last used earlier than the one it evicts |
| `HybridRecency.StampIsLastUse` | HybridSim/HybridSystem.cpp:1027-1247 | In every reachable state the timestamp of a line is the time of the last refill, read hit or write hit of its slot in the run, or its initial value |
| `HybridRecency.StepStamps` | HybridSim/HybridSystem.cpp:255-427 | Each event stamps the lines it uses with the clock, and no others |
| `HybridTiming.LookedUpOnTime` | HybridSim/HybridSystem.cpp:276-310 | A request is looked up CONTROLLER_DELAY cycles after it left the queue (in the next cycle if that is 0), whatever callbacks come in between, and not before |
| `HybridRuns.StepSafe` | HybridSim/HybridSystem.cpp:255-427 | Each event (accept, prefetch, clock, DRAM or flash answer, critical line) keeps the whole invariant |
| `HybridRuns.StartConsistent` | HybridSim/HybridSystem.cpp:37-234 | Every start with an unlocked table (empty, prefilled or restored) satisfies the invariant |
| `HybridRuns.RunTruthful` | HybridSim/HybridSystem.cpp:447-507 | The answers recorded at acceptance are those of the flat memory, step by step |
| `HybridSteps.Lookup` | HybridSim/HybridSystem.cpp:546-871 | A lookup cannot fail, and its requests to DRAM and flash keep every promise already made |
| `HybridSteps.LookReadHit` | HybridSim/HybridSystem.cpp:645-655 | A read hit locks its line, files its DRAM read, and keeps the invariant |
| `HybridSteps.LookWriteHit` | HybridSim/HybridSystem.cpp:1193-1247 | A write hit takes effect on the flat memory and is answered exactly once |
| `HybridSteps.LookPrefetchHit` | HybridSim/HybridSystem.cpp:661-670 | A prefetch hit changes nothing but the wake-up |
| `HybridSteps.LookMiss` | HybridSim/HybridSystem.cpp:682-871 | A miss locks page, victim and line, and its reads are promised what flash and DRAM hold |
| `HybridSteps.DispatchStep` | HybridSim/HybridSystem.cpp:288-352 | Taking the first unlocked transaction out of the queue keeps order per burst |
| `HybridSteps.ScanStep` | HybridSim/HybridSystem.cpp:288-360 | The scan keeps the invariant, and switches the flag off only when nothing can go |
| `HybridSteps.AcceptStep` | HybridSim/HybridSystem.cpp:447-507 | Accepting a request, or dropping one in the MMIO hole, keeps the invariant |
| `HybridSteps.PrefetchStep` | HybridSim/HybridSystem.cpp:509-522 | A prefetch may be added at any time |
| `HybridReplies.DramReply` | HybridSim/HybridSystem.cpp:1274-1322 | Every DRAM callback finds its entry, cannot fail, and keeps the invariant |
| `HybridReplies.FlashReply` | HybridSim/HybridSystem.cpp:1335-1362 | Every flash callback finds its entry, cannot fail, and keeps the invariant |
| `HybridReplies.CriticalReply` | HybridSim/HybridSystem.cpp:1364-1415 | A critical line answers the requester once, with the right data, and keeps the invariant |
| `HybridMissSteps.MissLocked` | HybridSim/HybridSystem.cpp:682-871 | The four lock tables agree once a miss is under way |
| `HybridMissSteps.LineLastLocked` | HybridSim/HybridSystem.cpp:1057-1107 | If the line arrives last it releases address, page, victim and line |
| `HybridMissSteps.LineDoneLocked` | HybridSim/HybridSystem.cpp:1057-1107 | If the victim is still being read the line's arrival releases nothing |
| `HybridMissSteps.VictimLastLocked` | HybridSim/HybridSystem.cpp:935-958 | If the victim read finishes last it releases everything |
| `HybridMissSteps.VictimDoneLocked` | HybridSim/HybridSystem.cpp:935-958 | If the line is still to come the victim's arrival releases nothing |
| `HybridMissSteps.EndMissRelease` | HybridSim/HybridSystem.cpp:1694-1722 | What the release does for a miss with no outstanding read |
| `HybridLocks.VictimIsLeastRecent` | HybridSim/HybridSystem.cpp:718-775 | The scan picks the first unlocked way with the least timestamp, and fails to pick only if all are locked |
| `HybridLocks.VictimExists` | HybridSim/HybridSystem.cpp:718-775 | Pigeonhole: below the set size an unlocked way exists |
| `HybridContents.ContentsMiss` | HybridSim/HybridSystem.cpp:682-871 | A miss leaves every page current in exactly the place the tables name |
| `HybridContents.ContentsVictim` | HybridSim/HybridSystem.cpp:935-982 | Writing back the victim makes the flash current for its page |
| `HybridContents.ContentsLine` | HybridSim/HybridSystem.cpp:1069-1133 | Refilling the line makes the DRAM current for the fetched page |
| `HybridContents.ContentsWrite` | HybridSim/HybridSystem.cpp:1193-1247 | A write hit makes the line the only current copy |
| `HybridLedger.RemapRoundTrip` | HybridSim/HybridSystem.cpp:465-474 | The 0.5 GB remap is undone by the callback for every address outside the hole |
| `HybridLedger.Opened` | HybridSim/Logger.cpp:143-201 | A dequeued request is found in the log queue and is not yet in the log map |
| `HybridLedger.Answered` | HybridSim/Logger.cpp:203-250 | Answering an open request moves it from under way to called back, takes it out of the log map, and keeps the ledger |
| `HybridLedger.OpenKnown` | HybridSim/Logger.cpp:203-250 | A request that is still owed an answer is in the log map |
| `HybridGeometry.AlignFaithful` | HybridSim/config.h:206-213 | ALIGN yields a burst of the address space; page and offset of the structured address are those of the macros |
| `HybridGeometry.AlignSame` | HybridSim/config.h:206-213 | Below the capacity ALIGN sends two addresses to one burst exactly if they lie in the same one |
| `HybridGeometry.BurstMacros` | HybridSim/config.h:206-213 | PAGE_NUMBER, PAGE_ADDRESS and PAGE_OFFSET invert the structured address |
| `HybridGeometry.SlotMacros` | HybridSim/config.h:206-213 | SET_INDEX and TAG invert the address of a cache line; adding an offset stays in the page |
| `HybridGeometry.PageSplit` | HybridSim/config.h:210-212 | A page number is found again from its tag and set |
| `HybridGeometry.PageJoin` | HybridSim/config.h:210-212 | Tag and set are found again from their page number |
| `HybridGeometry.FlashMacros` | HybridSim/config.h:206-213 | TAG and SET_INDEX of a raw address are those of its page, and FLASH_ADDRESS of them is its PAGE_ADDRESS |
| `HybridGeometry.FlashJoin` | HybridSim/config.h:206-213 | TAG and SET_INDEX of a FLASH_ADDRESS are the tag and set it was made of |
| `InOrderMemory.ServeKeepsAfter` | HybridSim/HybridSystem.cpp:363-413 | A memory that serves requests to one address in order gives later reads the same answer whatever it serves first |
| `InOrderMemory.ServedAnswer` | HybridSim/HybridSystem.cpp:1274-1362 | A read that is served returns what was fixed when it was submitted |
| `HybridSystems.Logger.AccessStart` | HybridSim/Logger.cpp:125-133 | Appends the address to the queue |
| `HybridSystems.Logger.AccessProcess` | HybridSim/Logger.cpp:143-201 | Moves the first entry of the address from queue to map; fails exactly when it is missing or already mapped |
| `HybridSystems.Logger.AccessStop` | HybridSim/Logger.cpp:203-250 | Removes the address from the map; fails exactly when it is missing |
| `HybridSystems.PrefilledUnheld` | HybridSim/HybridSystem.cpp:1512-1533 | The prefilled table holds no lock and no tag twice, so it is a legal start |
| `HybridSystems.HybridSystem.constructor` | HybridSim/HybridSystem.cpp:37-234 | The initial state; the table is empty or prefilled |
| `HybridSystems.HybridSystem.RestoreCacheTable` | HybridSim/HybridSystem.cpp:1512-1533 | Every line of the table is filled, with its way as tag |
| `HybridSystems.HybridSystem.ContentionIsUnlocked` | HybridSim/HybridSystem.cpp:1725-1746 | The test the scan uses |
| `HybridSystems.HybridSystem.ContentionCacheLineLock` | HybridSim/HybridSystem.cpp:1778-1790 | Line and set counter go up by one |
| `HybridSystems.HybridSystem.ContentionCacheLineUnlock` | HybridSim/HybridSystem.cpp:1792-1803 | Line and set counter go down by one; fails exactly below zero |
| `HybridSystems.HybridSystem.Release` | HybridSim/HybridSystem.cpp:1664-1722 | Whole new lock tables of the two releasing branches, and exactly when an assertion fails |
| `HybridSystems.HybridSystem.ContentionUnlock` | HybridSim/HybridSystem.cpp:1664-1722 | Releases for a hit, or for a miss with no outstanding read; otherwise nothing |
| `HybridSystems.HybridSystem.ContentionIncrement` | HybridSim/HybridSystem.cpp:1749-1756 | One more outstanding read of the page |
| `HybridSystems.HybridSystem.ContentionDecrement` | HybridSim/HybridSystem.cpp:1758-1765 | One outstanding read less; fails exactly at zero |
| `HybridSystems.HybridSystem.DoneCallback` | HybridSim/HybridSystem.cpp:1427-1472 | One callback with the remapped address, and the log entry ends |
| `HybridSystems.HybridSystem.CacheRead` | HybridSim/HybridSystem.cpp:1135-1173 | DRAM read, timestamp and pending entry; fails exactly if the address is pending |
| `HybridSystems.HybridSystem.CacheReadFinish` | HybridSim/HybridSystem.cpp:1175-1191 | Callback unless already sent, then the release |
| `HybridSystems.HybridSystem.CacheWrite` | HybridSim/HybridSystem.cpp:1193-1218 | DRAM write and the finish |
| `HybridSystems.HybridSystem.CacheWriteFinish` | HybridSim/HybridSystem.cpp:1221-1247 | Dirty line, callback unless already sent, then the release |
| `HybridSystems.HybridSystem.ReadChunks` | HybridSim/HybridSystem.cpp:1008-1016 | All flash reads of a page are queued and awaited |
| `HybridSystems.HybridSystem.ReadBursts` | HybridSim/HybridSystem.cpp:891-899 | All DRAM reads of a line are queued and awaited |
| `HybridSystems.HybridSystem.LineRead` | HybridSim/HybridSystem.cpp:986-1021 | Semaphore, reads and pending entry of a line read |
| `HybridSystems.HybridSystem.VictimRead` | HybridSim/HybridSystem.cpp:873-906 | Semaphore, reads and pending entry of a victim read |
| `HybridSystems.HybridSystem.VictimWrite` | HybridSim/HybridSystem.cpp:961-984 | The whole victim page is written to flash |
| `HybridSystems.HybridSystem.LineWrite` | HybridSim/HybridSystem.cpp:1111-1132 | The whole page is written to DRAM |
| `HybridSystems.HybridSystem.FindHit` | HybridSim/HybridSystem.cpp:583-612 | The first way of the set that holds the tag, if any |
| `HybridSystems.HybridSystem.FindVictim` | HybridSim/HybridSystem.cpp:696-775 | The first unlocked way with the least timestamp, or way 0 |
| `HybridSystems.HybridSystem.ProcessHit` | HybridSim/HybridSystem.cpp:642-680 | The hit branch of a lookup |
| `HybridSystems.HybridSystem.LockMissed` | HybridSim/HybridSystem.cpp:682-844 | Page, victim and line locks of a miss |
| `HybridSystems.HybridSystem.ProcessMiss` | HybridSim/HybridSystem.cpp:682-871 | The miss branch of a lookup |
| `HybridSystems.HybridSystem.ProcessTransaction` | HybridSim/HybridSystem.cpp:546-871 | The whole lookup, and exactly when it aborts |
| `HybridSystems.HybridSystem.VictimReadFinish` | HybridSim/HybridSystem.cpp:908-958 | A part of the victim arrives; the last one releases and writes back |
| `HybridSystems.HybridSystem.DramReadCallback` | HybridSim/HybridSystem.cpp:1274-1322 | Dispatch of a DRAM answer to its pending entry |
| `HybridSystems.HybridSystem.LineReadFinish` | HybridSim/HybridSystem.cpp:1024-1108 | A part of the line arrives; the last one retags the line, writes it to DRAM and finishes |
| `HybridSystems.HybridSystem.FlashReadCallback` | HybridSim/HybridSystem.cpp:1335-1362 | Dispatch of a flash answer to its pending entry |
| `HybridSystems.HybridSystem.FlashCriticalLineCallback` | HybridSim/HybridSystem.cpp:1364-1415 | Early callback, marked as sent |
| `HybridSystems.HybridSystem.AddTransaction` | HybridSim/HybridSystem.cpp:447-507 | MMIO drop, remap, queue, log and wake-up |
| `HybridSystems.HybridSystem.AddPrefetch` | HybridSim/HybridSystem.cpp:509-522 | A prefetch goes to the front of the queue |
| `HybridSystems.HybridSystem.FindUnlocked` | HybridSim/HybridSystem.cpp:288-352 | The first queued transaction that contention lets through |
| `HybridSystems.HybridSystem.ScanQueue` | HybridSim/HybridSystem.cpp:288-360 | Dequeue of that transaction, or the flag goes off |
| `HybridSystems.HybridSystem.SendRequests` | HybridSim/HybridSystem.cpp:363-418 | At most one request goes to each memory; delay and clock move on |
| `HybridSystems.HybridSystem.Update` | HybridSim/HybridSystem.cpp:255-427 | One clock cycle of the controller |
| `HybridWorld.World.constructor` | HybridSim/HybridSystem.cpp:37-234 | Around a controller just built and memories that hold what the callers may read, the invariant of runs holds |
| `HybridWorld.World.AddTransaction` | HybridSim/HybridSystem.cpp:447-507 | The call is the event of a run |
| `HybridWorld.World.AddPrefetch` | HybridSim/HybridSystem.cpp:509-522 | The call is the event of a run |
| `HybridWorld.World.Update` | HybridSim/HybridSystem.cpp:255-427 | A clock cycle succeeds, and is the event of a run |
| `HybridWorld.World.DramReadCallback` | HybridSim/HybridSystem.cpp:1274-1322 | The callback for any outstanding DRAM read succeeds, and is the event of a run |
| `HybridWorld.World.FlashReadCallback` | HybridSim/HybridSystem.cpp:1335-1362 | The callback for any outstanding flash read succeeds, and is the event of a run |
| `HybridWorld.World.FlashCriticalLineCallback` | HybridSim/HybridSystem.cpp:1364-1415 | An early callback succeeds, and is the event of a run |
| `DramTheorems.RankNeverRefuses` | DRAMSim2/Rank.cpp:94-266 | In every run, under both row policies, both queue structures and any refresh schedule, each command is legal in the rank's own table when it arrives |
| `DramRankChecks.RankAccepts` | DRAMSim2/Rank.cpp:94-266 | For any commands a rank got: it accepts the next one exactly if the row is open or closed as the command needs and every distance to the commands that still count is kept, in the timing parameters |
| `DramRankChecks.HorizonExact` | DRAMSim2/Rank.cpp:94-266 | A horizon of the rank has passed exactly if each of those distances is kept; an activate of the bank, or for an activate a refresh, makes earlier commands count no more |
| `DramRankChecks.RankTableTells` | DRAMSim2/Rank.cpp:94-266 | In every run the table of a rank is the one left by the commands it got |
| `DramTheorems.NoStrandedColumn` | DRAMSim2/CommandQueue.cpp:194-532 | Every queued activate is followed by its column; a column whose activate is gone is the first of its bank and finds its row open; no queue overflows |
| `DramTheorems.CommandsAreSpaced` | DRAMSim2/MemoryController.cpp:301-468 | Every two commands of a run keep the distance of the table of same-bank and same-rank gaps, the read-to-write and write-to-read ones of both row policies included |
| `DramTheorems.Turnarounds` | DRAMSim2/SystemConfiguration.h:119-128 | The same for two column commands of a rank, in CL, AL, BL, tWTR, tRTRS, tCCD, tWR, tRP and tRTP |
| `DramTheorems.Recoveries` | DRAMSim2/SystemConfiguration.h:119-128 | The same for the commands that open and close a row of a bank, write recovery included, in the timing parameters |
| `DramTheorems.RanksAreSpaced` | DRAMSim2/MemoryController.cpp:327-405 | Two column commands of different ranks keep BL/2 + tRTRS (same direction), RL + BL/2 + tRTRS - WL (read then write) and WL + BL/2 + tRTRS - RL (write then read), if the row of the later one was not opened in between |
| `DramCrossRank.IssueYields` | DRAMSim2/MemoryController.cpp:327-405 | A column command moves the horizons of the open banks of every other rank that far, and no later command but an activate moves them back |
| `DramLiveness.RefreshGoesFirst` | DRAMSim2/CommandQueue.cpp:242-247 | With a refresh waiting, what the cycle issues is the refresh of that rank, if and only if no row of the rank is open and every bank of it may be activated |
| `DramLiveness.EveryTransactionIssued` | DRAMSim2/CommandQueue.cpp:164-555 | In every run without arrivals from a reachable state that is long enough for the work left and the refreshes that come due, the column command of every accepted transaction is issued, whatever picks are made; tRP is at least 1 and a queue holds two commands |
| `DramLiveness.WaitingRefreshIssued` | DRAMSim2/CommandQueue.cpp:194-247 | In every such run in which no other refresh comes due, the waiting refresh is issued |
| `DramLiveness.ClockIssuesAll` | DRAMSim2/MemoryController.cpp:153-570 | Such a run exists: the clock alone, for the number of cycles given by `Bound`, brings out everything accepted and the waiting refresh |
| `DramLiveness.IdleOnlyAtRest` | DRAMSim2/CommandQueue.cpp:194-532 | When every horizon is behind, nothing is picked only if no refresh waits, no row is open and no command is queued |
| `DramLiveness.StepWork` | DRAMSim2/MemoryController.cpp:153-570 | Every cycle leaves less to do, or is idle and brings the last horizon nearer |
| `DramWork.PickWorks` | DRAMSim2/CommandQueue.cpp:436-552 | Whatever is picked leaves less to do |
| `DramProgress.CycleLive` | DRAMSim2/MemoryController.cpp:158-468 | No horizon is further ahead than the sum of the timing parameters, a row left open for automatic precharge has its column queued, and no counter passes its limit |
| `DramLimits.PrechargeMustEnd` | DRAMSim2/MemoryController.cpp:158-191 | With tRP zero a precharge is never seen to end: without a refresh, transactions to two rows of a bank are never both issued |
| `DramLimits.NoRoomNoIssue` | DRAMSim2/MemoryController.cpp:508-546 | With queues for fewer than two commands no transaction is ever issued |
| `DramAccesses.RowAccessesBounded` | DRAMSim2/CommandQueue.cpp:436-456 | At every moment of every run a bank got at most TOTAL_ROW_ACCESSES + 1 column commands since its last activate, and with automatic precharge at most one |
| `DramAccesses.RowsStayOpen` | DRAMSim2/CommandQueue.cpp:487-530 | A row is closed only if a refresh waits for its rank, if no queued command goes to it, or if exactly TOTAL_ROW_ACCESSES + 1 columns used it; and, but for the refresh, only in a cycle in which no queued command could be issued |
| `DramTheorems.SomePickAllowed` | DRAMSim2/CommandQueue.cpp:194-532 | From every reachable state, whatever refresh is due, some pick is allowed: the guard of a cycle never blocks a run |
| `DramTheorems.FourActivateWindow` | DRAMSim2/CommandQueue.cpp:171-184 | The k-th and (k+4)-th activate of a rank are at least tFAW cycles apart |
| `DramTheorems.ArrivalOrder` | DRAMSim2/MemoryController.cpp:492-565 | Column commands to one row, hence to one address, issue in arrival order; issued, queued and waiting together are the accepted ones |
| `DramTheorems.ReadsAreConserved` | DRAMSim2/MemoryController.cpp:545-553 | For every address the pending reads are the reads in the queues, on the bus, in the ranks and returned |
| `DramTheorems.ReturnedDataMatches` | DRAMSim2/MemoryController.cpp:662-700 | Returned data always matches a pending read, and no rank overwrites its outgoing packet |
| `DramReturns.EveryReadReturned` | DRAMSim2/MemoryController.cpp:662-700 | In every run without arrivals from a reachable state that is longer than the bound of `EveryTransactionIssued` by the read latency and the accepted transactions, no read is left pending: all have been answered |
| `DramTheorems.NoDataBusCollision` | DRAMSim2/MemoryController.cpp:206-260 | If max(2, 1 + tRCD - AL) reaches BL/2, or all addresses are on one rank, or a queue holds no two commands, writes are a burst apart, reads are a burst apart, and the write bus never collides |
| `DramTheorems.NoReadOverlap` | DRAMSim2/Rank.cpp:299-342 | Under the same condition no two ranks drive the data bus in the same cycle |
| `DramCollision.NarrowBusCollides` | DRAMSim2/MemoryController.cpp:385-405 | Otherwise a run from power-up reaches a collision, so the condition is exact |
| `DramCollision.NarrowBusOverlaps` | DRAMSim2/MemoryController.cpp:327-340 | Otherwise a run from power-up has two ranks drive the data bus at once, so the condition is exact for reads too |
| `DramCrossRank.ApartNoOverlap` | DRAMSim2/Rank.cpp:299-342 | Reads popped a burst apart never overlap on the bus |
| `DramCrossRank.CloseReadsOverlap` | DRAMSim2/Rank.cpp:299-342 | Reads of two ranks popped closer than that overlap when the second is due |
| `DramCollision.TakeStep` | DRAMSim2/CommandQueue.cpp:252-302 | With two places of two ranks in play, a ready head of a queue is popped, and the other rank sees only what the table says |
| `DramCollision.WaitStep` | DRAMSim2/CommandQueue.cpp:252-326 | A cycle in which nothing is ready pops nothing and changes only countdowns |
| `DramCollision.DuoCollides` | DRAMSim2/MemoryController.cpp:223-260 | Two packets pushed closer than a burst collide exactly when the second is due |
| `DramData.IssueHolds` | DRAMSim2/MemoryController.cpp:327-405 | After a column command no bank is ready for another one of its direction within a burst, whatever is popped |
| `DramData.OneRankApart` | DRAMSim2/MemoryController.cpp:327-405 | On one rank the spacing of commands keeps reads, and writes, a burst apart |
| `DramData.UnusedStays` | DRAMSim2/MemoryController.cpp:508-546 | A queue without room for two commands stays empty |
| `DramBanks.ReadyIsLegal` | DRAMSim2/CommandQueue.cpp:625-690 | A command the controller finds ready is legal for the rank one cycle later |
| `DramBanks.AgreeIssued` | DRAMSim2/MemoryController.cpp:295-468 | One cycle of both tables keeps them in agreement, for every command |
| `DramBanks.AgreeTicked` | DRAMSim2/MemoryController.cpp:158-191 | A cycle without a command keeps them in agreement |
| `DramSchedulerSteps.PickOk` | DRAMSim2/CommandQueue.cpp:194-555 | Whatever is picked is ready at every bank it concerns and keeps the scheduler's invariant |
| `DramSchedulerSteps.ScheduledRemovable` | DRAMSim2/CommandQueue.cpp:252-302 | The scans of both policies only take an activate that is first of its bank, a loose column, or a column with its activate |
| `DramSchedulerSteps.FlushedRemovable` | DRAMSim2/CommandQueue.cpp:206-227 | The scan before a refresh only takes a loose column |
| `DramSchedulerSteps.ClosableHasNone` | DRAMSim2/CommandQueue.cpp:499-522 | A row that may be closed has no loose column waiting for it |
| `DramSchedulerSteps.TickedOk` | DRAMSim2/MemoryController.cpp:158-191 | Rows in use survive the countdowns |
| `DramSchedulerSteps.EnqueuedOk` | DRAMSim2/MemoryController.cpp:508-546 | Splitting a transaction keeps the invariant |
| `DramQueues.RemovedStranded` | DRAMSim2/CommandQueue.cpp:436-456 | Each way of removing packets leaves no stranded column |
| `DramSpacing.IssueKeeps` | DRAMSim2/MemoryController.cpp:301-468 | No command moves a horizon below what earlier commands ask for |
| `DramSpacing.IssueSets` | DRAMSim2/MemoryController.cpp:301-468 | Each command sets the horizons its gaps ask for |
| `DramSpacing.ReadyIsSpaced` | DRAMSim2/CommandQueue.cpp:625-690 | A ready command keeps its distance from every earlier one |
| `DramWindows.WindowTick` | DRAMSim2/CommandQueue.cpp:171-184 | Removing only the head is enough, because the ages are distinct |
| `DramWindows.WindowPush` | DRAMSim2/CommandQueue.cpp:548-552 | An activate with fewer than four counted keeps the window |
| `DramOrder.RemovedColumns` | DRAMSim2/CommandQueue.cpp:416-458 | A pick takes the first column of its row and of no other |
| `DramOrder.SplitOrder` | DRAMSim2/MemoryController.cpp:492-565 | Taking the first transaction with room keeps the order of each row |
| `DramPipes.FlowsTick` | DRAMSim2/Rank.cpp:299-342 | A data pipe fed at burst distance delivers in order and is never overwritten |
| `DramPipes.FlowsNoCollision` | DRAMSim2/MemoryController.cpp:223-260 | Such a pipe never collides |
| `DramPipes.CountDown` | DRAMSim2/Rank.cpp:315-319 | Every countdown decreases by one |
| `DramReads.CycleConserves` | DRAMSim2/MemoryController.cpp:662-700 | A cycle conserves reads and finds a match for returned data |
| `DramCommandQueue.IndexNext` | DRAMSim2/CommandQueue.cpp:721-756 | nextRankAndBank goes to the next place of a cycle through all ranks and banks, under both policies |
| `DramCommandQueue.IndexInjective` | DRAMSim2/CommandQueue.cpp:721-756 | No two cursors share a place, so a scan visits each once |
| `DramCommandQueue.ScanStep` | DRAMSim2/CommandQueue.cpp:304-322 | A scan terminates, and back at its start it has seen every cursor |
| `DramCommandQueue.PassedOverSooner` | DRAMSim2/CommandQueue.cpp:534-546 | The round robin is fair: with a queue per bank, once the cursor moves on behind the queue that was taken, a queue that was passed over is nearer to it by exactly the places in between |
| `DramCommandQueue.CommandQueue.constructor` | DRAMSim2/CommandQueue.cpp:49-110 | Empty queues, zero counters, empty windows |
| `DramCommandQueue.CommandQueue.NeedRefresh` | DRAMSim2/CommandQueue.cpp:715-719 | Flags the rank |
| `DramCommandQueue.CommandQueue.HasRoomFor` | DRAMSim2/CommandQueue.cpp:558-562 | Room for n commands |
| `DramCommandQueue.CommandQueue.Enqueue` | DRAMSim2/CommandQueue.cpp:131-160 | Appends to the right queue; reports an overflow exactly when the depth is passed |
| `DramCommandQueue.CommandQueue.TickFaw` | DRAMSim2/CommandQueue.cpp:171-184 | All windows count down and drop an expired head |
| `DramCommandQueue.CommandQueue.IsIssuable` | DRAMSim2/CommandQueue.cpp:625-690 | The test of state, horizon, row, window and access counter; false for a refresh |
| `DramCommandQueue.CommandQueue.HasDependency` | DRAMSim2/CommandQueue.cpp:421-434 | Whether an earlier column goes to the same bank and row |
| `DramCommandQueue.CommandQueue.FindCandidate` | DRAMSim2/CommandQueue.cpp:266-297 | The first candidate of a queue, or none in it |
| `DramCommandQueue.CommandQueue.FindPacket` | DRAMSim2/CommandQueue.cpp:252-326 | The first candidate in round-robin order: no queue between the cursor and it has one; or none in any queue of a rank that is not waiting for a refresh, and the cursor is back |
| `DramCommandQueue.CommandQueue.FindClosable` | DRAMSim2/CommandQueue.cpp:487-530 | The first row to close in round-robin order: none between the cursor and it can be closed; or none at all |
| `DramCommandQueue.CommandQueue.MayClose` | DRAMSim2/CommandQueue.cpp:499-522 | Whether a row can be closed |
| `DramCommandQueue.CommandQueue.FindForRow` | DRAMSim2/CommandQueue.cpp:345-372 | The first packet that goes to a row |
| `DramCommandQueue.CommandQueue.ServeRefresh` | DRAMSim2/CommandQueue.cpp:331-402 | With a refresh waiting: exactly what it asks for (the column of an open row, its precharge, or the refresh), which goes before anything else |
| `DramScheduling.RefreshEligible` | DRAMSim2/CommandQueue.cpp:229-247 | That is the refresh exactly when the rank is ready for it, and it can always be served |
| `DramCommandQueue.CommandQueue.ServeRow` | DRAMSim2/CommandQueue.cpp:338-382 | The column for an open row, or its precharge, exactly as the waiting refresh asks |
| `DramCommandQueue.CommandQueue.Carry` | DRAMSim2/CommandQueue.cpp:436-456 | Queue, counters, window and flag after a pick, and the packet |
| `DramCommandQueue.CommandQueue.Choose` | DRAMSim2/CommandQueue.cpp:194-532 | What a waiting refresh asks for, or else an allowed pick of the scans, and nothing only if there is nothing to do |
| `DramCommandQueue.CommandQueue.Pop` | DRAMSim2/CommandQueue.cpp:164-555 | One call per cycle: an allowed pick (the refresh first, then the scan from the cursor, then a precharge), its packet, the whole new state, and where both cursors go; terminates and is work-conserving |
| `DramController.Rank.constructor` | DRAMSim2/Rank.cpp:45-59 | All banks closed, nothing returning |
| `DramController.Rank.ReceiveFromBus` | DRAMSim2/Rank.cpp:82-292 | The whole new table and pipeline; fails exactly when the command is illegal |
| `DramController.Rank.ReceiveRefresh` | DRAMSim2/Rank.cpp:254-266 | All banks refreshed; fails exactly if one is open |
| `DramController.Rank.UpdateBanks` | DRAMSim2/Rank.cpp:94-253 | The table after any other command |
| `DramController.Rank.Update` | DRAMSim2/Rank.cpp:299-342 | The read pipeline moves on by one cycle |
| `DramController.MemoryController.constructor` | DRAMSim2/MemoryController.cpp:63-111 | Fresh bank states and empty queues |
| `DramController.MemoryController.UpdateBankStates` | DRAMSim2/MemoryController.cpp:158-191 | All countdowns run and change the states that are due |
| `DramController.MemoryController.IssueTo` | DRAMSim2/MemoryController.cpp:299-468 | The effect of a command on one bank |
| `DramController.MemoryController.IssueCommand` | DRAMSim2/MemoryController.cpp:299-468 | The effect of a command on the whole table |
| `DramController.MemoryController.SendWriteData` | DRAMSim2/MemoryController.cpp:205-260 | The write pipeline moves on; fails exactly on a collision |
| `DramController.MemoryController.ReceiveFromBus` | DRAMSim2/MemoryController.cpp:114-135 | Read data joins the answers |
| `DramController.MemoryController.ReturnReadData` | DRAMSim2/MemoryController.cpp:662-700 | One answer is matched and returned; fails exactly if none matches |
| `DramController.MemoryController.AddTransaction` | DRAMSim2/MemoryController.cpp:762-780 | The transaction joins the queue, or is refused exactly when the queue is full |
| `DramController.MemoryController.ScheduleTransaction` | DRAMSim2/MemoryController.cpp:492-570 | The first transaction with room is split; the queue cannot overflow |
| `DramController.MemoryController.EnqueueBoth` | DRAMSim2/MemoryController.cpp:532-546 | Activate and column are enqueued together |
| `DramController.MemoryController.Begin` | DRAMSim2/MemoryController.cpp:158-279 | Countdowns, delivery, data bus and refresh flag |
| `DramController.MemoryController.PopCommand` | DRAMSim2/MemoryController.cpp:281-490 | The next command, its effect and its data |
| `DramController.MemoryController.Finish` | DRAMSim2/MemoryController.cpp:492-700 | A transaction is split and an answer returned |
| `DramController.MemoryController.Update` | DRAMSim2/MemoryController.cpp:153-760 | The controller's part of a cycle, as a whole; the command is handed out for delivery |
| `DramChannel.MemorySystem.constructor` | DRAMSim2/MemorySystem.cpp:133-147 | Controller and ranks in the state from which runs start |
| `DramChannel.MemorySystem.AddTransaction` | DRAMSim2/MemorySystem.cpp:179-200 | An accepted transaction is an arrival of a run; refused exactly when the queue is full |
| `DramChannel.MemorySystem.UpdateRanks` | DRAMSim2/MemorySystem.cpp:217-220 | All read pipelines move on, and delivered data reaches the controller in rank order |
| `DramChannel.MemorySystem.UpdateParts` | DRAMSim2/MemorySystem.cpp:217-228 | Ranks and controller together compute the parts of a cycle |
| `DramChannel.MemorySystem.Deliver` | DRAMSim2/Rank.cpp:94-266 | The command reaches its rank; refused exactly when it is illegal there |
| `DramChannel.MemorySystem.Update` | DRAMSim2/MemorySystem.cpp:210-237 | The objects do one cycle of a run; no error exit is taken, but for a data-bus collision when the bus is narrow |
| `DramChannel.CycleRuns` | DRAMSim2/MemoryController.cpp:153-760 | In every cycle of a run the rank accepts its command, the answer finds its read, and a wide bus is free |
| `MigrationRuns.MigrationIsExact` | qemu/arch_init.c:249-456 | However guest writes and stages interleave, and in whatever order the destination lists its blocks, once no page is dirty and the last stage has ended, loading the sections gives every block of the source, found by its id, the source's pages, and leaves other blocks alone |
| `MigrationRuns.MissingBlockRefused` | qemu/arch_init.c:388-416 | A destination that lacks a block, or has it with another length, refuses the stream with EINVAL, so the condition on the destination is exact |
| `MigrationRuns.DirtyOrSent` | qemu/arch_init.c:111-173 | At every moment a page is dirty or the stream sent so far puts it where the destination keeps it; continued records resolve to the sender's block; nothing has been sent while last_block is null |
| `MigrationRuns.StepSound` | qemu/arch_init.c:111-173 | Each event keeps that invariant |
| `MigrationRuns.StartSound` | qemu/arch_init.c:266-294 | The beginning of stage 1 establishes it |
| `MigrationRuns.RecordGood` | qemu/arch_init.c:126-152 | Every page record can be encoded, is accepted, and stores the page in the block with the sender's id |
| `MigrationRoundTrip.TurnDecodes` | qemu/arch_init.c:375-453 | One turn of the receiver undoes one record, whatever follows |
| `MigrationRoundTrip.ListFirst` | qemu/arch_init.c:388-416 | The receiver reads exactly the block descriptions the sender wrote |
| `MigrationRoundTrip.ListRefused` | qemu/arch_init.c:388-416 | A list with one unknown block or wrong length is refused |
| `MigrationRoundTrip.PageReceived` | qemu/arch_init.c:420-449 | Short and long page records, with and without a block id, decode to the page |
| `MigrationRoundTrip.SectionLoads` | qemu/arch_init.c:366-456 | One call of ram_load consumes one section and arrives at its meaning |
| `MigrationStream.PutGet` | qemu/arch_init.c:135-150 | A 64-bit big-endian word is read back |
| `MigrationStream.PageOnTheWire` | qemu/arch_init.c:126-152 | The bytes of a page record: the offset with flags 0x02, 0x08 and 0x20, most significant byte first, the name unless continued, then the page or its one byte |
| `MigrationStream.HeaderOnTheWire` | qemu/arch_init.c:287-329 | The bytes of the block list and of the end of a section, flags 0x04 and 0x10 |
| `MigrationCode.IsDupPage` | qemu/arch_init.c:93-106 | True exactly if every byte of the page is the given one |
| `MigrationCode.IndexNext` | qemu/arch_init.c:157-165 | The scan goes to the next page and wraps round |
| `MigrationCode.ScanStep` | qemu/arch_init.c:123-167 | The scan sees every page before it is back at its start |
| `MigrationCode.RamSender.constructor` | qemu/arch_init.c:108-109 | Nothing sent yet |
| `MigrationCode.RamSender.GuestWrite` | qemu/arch_init.c:284-285 | A guest write marks its page dirty |
| `MigrationCode.RamSender.PutPage` | qemu/arch_init.c:126-152 | Exactly the bytes of the page record; returns 1 for a page of equal bytes and the page size otherwise |
| `MigrationCode.RamSender.FindDirty` | qemu/arch_init.c:111-167 | The first dirty page from the last one on, or none at all |
| `MigrationCode.RamSender.SendPage` | qemu/arch_init.c:126-171 | The page is sent, clean and remembered; its data bytes are returned |
| `MigrationCode.RamSender.RamSaveBlock` | qemu/arch_init.c:111-173 | Sends the next dirty page in round-robin order and returns its data bytes; returns 0 exactly if none is dirty |
| `MigrationCode.RamSender.RamSaveRemaining` | qemu/arch_init.c:177-193 | The number of dirty pages |
| `MigrationCode.RamSender.MarkAll` | qemu/arch_init.c:273-282 | Every page is dirty |
| `MigrationCode.RamSender.RamBytesTotal` | qemu/arch_init.c:205-214 | The sum of the block lengths |
| `MigrationCode.RamSender.PutBlocks` | qemu/arch_init.c:289-293 | The list of blocks |
| `MigrationCode.RamSender.PutHeader` | qemu/arch_init.c:287-293 | Exactly the bytes of the header |
| `MigrationCode.RamSender.Begin` | qemu/arch_init.c:266-294 | The state in which stage 1 starts |
| `MigrationCode.RamSender.PutEnd` | qemu/arch_init.c:329-329 | The end-of-section word |
| `MigrationCode.RamSender.SendPages` | qemu/arch_init.c:299-327 | A run of sends, of all dirty pages or as many as the budget allows; the flush ends with no dirty page, and terminates; bytes_transferred stays the sum of the data bytes |
| `MigrationCode.RamSender.RamSaveLive` | qemu/arch_init.c:249-334 | Each stage is a run of that many sends and an end of section; stage 3 leaves no dirty page; bytes_transferred is the data bytes of the records sent |
| `MigrationCode.RamReceiver.constructor` | qemu/arch_init.c:340-340 | No block named yet |
| `MigrationCode.RamReceiver.LookUp` | qemu/arch_init.c:357-360 | The first block with the id |
| `MigrationCode.RamReceiver.SynchronizeBlocks` | qemu/arch_init.c:381-417 | Accepts exactly lists of known blocks with equal lengths, and consumes them |
| `MigrationCode.RamReceiver.HostFromStreamOffset` | qemu/arch_init.c:336-364 | The named block, or the last one for a continued record |
| `MigrationCode.RamReceiver.Memset` | qemu/arch_init.c:433-433 | A page filled with one byte |
| `MigrationCode.RamReceiver.LoadPage` | qemu/arch_init.c:420-449 | Stores the page of a record; the error cases of both forms |
| `MigrationCode.RamReceiver.LoadRecord` | qemu/arch_init.c:375-453 | One turn of the loop |
| `MigrationCode.RamReceiver.RamLoad` | qemu/arch_init.c:366-456 | One section; other versions are rejected |
| `AddressMapping.MapIsBijective` | DRAMSim2/AddressMapping.cpp:58-297 | For all seven schemes: an address below capacity maps into range, and the explicit inverse recovers it |
| `AddressMapping.UnmapIsBijective` | DRAMSim2/AddressMapping.cpp:58-297 | Every location in range is the image of its inverse, which is below capacity |
| `AddressMapping.AlignedRoundTrip` | DRAMSim2/AddressMapping.cpp:58-83 | An aligned address is recovered from its location |
| `AddressMapping.SliceIsLow` | DRAMSim2/AddressMapping.cpp:97-101 | Shifting down, up and comparing by exclusive or takes the low bits |
| `AddressMapping.Slice` | DRAMSim2/AddressMapping.cpp:97-101 | One field and the remaining address |
| `AddressMapping.MapAddress` | DRAMSim2/AddressMapping.cpp:36-297 | The code of all seven schemes computes the mapping of the address without its byte and low column bits |
| `AddressMapping.MapFields` | DRAMSim2/AddressMapping.cpp:85-297 | Each field of each scheme as a quotient and remainder by powers of two |
| `AddressMapping.SchemesDiffer` | DRAMSim2/AddressMapping.cpp:85-297 | With all widths positive, any two schemes place some address below capacity differently |
| `AddressMapping.FieldInRangeIff` | DRAMSim2/AddressMapping.cpp:40-46 | A count bounds its field for every address if and only if it is a power of two |
| `AddressMapping.DramsimLog2` | DRAMSim2/SystemConfiguration.h:200-212 | The least exponent whose power of two reaches the value |
| `AddressMapping.IsPowerOfTwo` | DRAMSim2/SystemConfiguration.h:213-216 | True exactly for the powers of two below 2^32; the logarithm sees only the low 32 bits |
| `ClockDomain.RoundedUpUnique` | DRAMSim2/ClockDomain.cpp:59-88 | The number of callbacks is determined |
| `ClockDomain.ClockDomainCrosser.constructor` | DRAMSim2/ClockDomain.cpp:14-18 | Both counters at zero |
| `ClockDomain.ClockDomainCrosser.Update` | DRAMSim2/ClockDomain.cpp:59-88 | After n updates the callback has run n*clock1/clock2 times, rounded up, resets included; no counter passes a common multiple of the clocks |
| `ClockDomain.Bounded` | DRAMSim2/ClockDomain.cpp:68-87 | Neither counter passes any common multiple, hence not the least one |

## Left out

- `HybridSystems.HybridSystem.AddTransaction`: REMAP_MMIO is 1, as HybridSim/config.h:83 sets it.
- `HybridSystems.HybridSystem.DoneCallback`: REMAP_MMIO is 1, as HybridSim/config.h:83 sets it.
- HybridSim SYNC, SYNC_ALL_COUNTER and FLUSH transactions, cheat prefetches, the restore file: the lock discipline is not meant to hold across the first two, and the others bypass it.
- HybridSim's prefetchers, perfect-prefetch file and TLB: prefetches may arrive at any time; when they do is not modelled.
- Tables of HybridSim that nothing reads back (`dram_pending_set`, prefetched and used flags, statistics, latencies in the log).
- An entry of the cache table that does not exist stands for a default line; the lookup does not insert it.
- HybridSim assumes that the burst size divides the flash burst size, and that the page size is a multiple of both; `HybridGeometry.Sound` asks for it.
- The contents of a page are tracked per burst; a write replaces its whole burst.
- `HybridSystems.HybridSystem`: groups the source's fields in records (`core`, `tables`, `front`); the two auxiliary maps are part of `core`.
- DRAMSim2's low-power mode, power and bandwidth statistics, `MemorySystem::pendingTransactions`; the order of requests starts at the controller.
- `DramLiveness.EveryTransactionIssued`: asks for tRP of at least 1 and queues of at least two commands; `DramLimits` shows what fails without them.
- `DramLiveness.WaitingRefreshIssued`: a refresh that comes due while another waits takes its place, as `needRefresh` does, so none may come due before it.
- DRAMSim2 command bus: `tCMD` is 1, the only value its single command slot supports.
- When refreshes are due is left to the environment; every schedule is covered. The rank's refresh flag serves low power only.
- `DramTheorems.CommandsAreSpaced`: with automatic precharge two column commands to different banks of a rank keep the lesser of the table's distance and the recovery of a bank that precharged itself in between, because such a bank's column horizons are reset; `DramTheorems.RanksAreSpaced` has the gaps between ranks.
- `DramController.MemoryController.Begin`: hands the command out; `DramChannel.MemorySystem` delivers it to the rank.
- Bank data storage of DRAMSim2: only the order and the timing of data are modelled.
- QEMU stream version 3, which names no blocks; madvise, rate limiting by time, bandwidth and downtime estimates, sorting of the block list.
- `MigrationCode.RamReceiver.RamLoad`: covers stream version 4 only; says nothing about the memory after a failure; a short read ends the call at once instead of at the end of the turn.
- `MigrationCode.RamSender.FindDirty`: the sender's list of blocks keeps its order during a scan; the theorems of `MigrationRuns` do not depend on the order in which dirty pages are sent.
- `MigrationCode.RamSender.RamSaveBlock`: positions stand for `block->offset + offset`; blocks do not overlap, so equal addresses are equal positions.
- The constructor of the clock-domain crosser that approximates a floating-point ratio.
