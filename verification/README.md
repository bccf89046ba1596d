# Verification of the exchange queues and the Phemex connector

This project models five parts of the repository in Dafny 4.11 and proves what they promise.

- **The multi-producer multi-consumer ring** (`WFMPMC.h`) is a small-step machine with any number of threads,
  any positive `SIZE` and `THR_SIZE`, and one step per atomic action (`MpmcModel`). A sequence of moves is one
  interleaving, so a statement about all sequences of moves is one about all interleavings. The data write and
  the data read begin and end in separate steps; a write tears the cell in between, and a read delivers garbage
  if the cell changed under it. `MpmcInvariant` holds the inductive invariant, `MpmcTable`, `MpmcTickets`,
  `MpmcCells` and `MpmcSafety` its preservation by every step. The promises are in `MpmcTheorems`, `MpmcRuns`,
  `MpmcOrder`, `MpmcCalls`, `MpmcThreads`, `MpmcCapacity`, `MpmcProgress`, `MpmcLiveness`, `MpmcStarvation`,
  `MpmcLifetime` and `MpmcRefinement`. The queue object with its fields is `WfMpmcClass.WfMpmc`; `MpmcSolo` ties its try calls
  to runs of the machine. `ShmInit` is the race to construct the object in shared memory.
- **The unchecked rings** (`WFSPSC.h`, `WFSPMC.h`) have exact statements about what a read returns, also when the
  writer laps the reader (`LogRing`, `Spsc`, `Spmc`), and a two-thread machine for callers that ask before they
  write or read (`SpscThreads`).
- **The order book** (`MarketDataService.hpp`) is the method with its loops, proved equal to the meaning of the
  message history (`OrderBook`).
- **The websocket session** (`WSConnection.hpp`) is its queue and callbacks under any behaviour of the network
  (`WsSession`).
- **The request ids and reconnects** (`TradeService.hpp`) run on top of any number of such sessions
  (`TradeProtocol`).

Values named as logs in the models (who drew a ticket, what was pushed, what was delivered) are never read by a
step.

## Where the code does not meet its own expectations

- **Order of pushes.** A push that has returned can be overtaken by one that begins later, if the later
  call resumes a ticket that its thread's record kept from a failed attempt. `MpmcRetry.RetriedPushOvertakes` is
  such a run; `MpmcOrder.OrderOfCalls` says exactly when it happens.
- **One-time construction.** `shmInit` constructs the whole object, `init_state` included. The comment at
  `WFMPMC.h:39` demands that construction leave `init_state` alone. That holds before C++20; from C++20 on the
  default constructor of `std::atomic<int>` stores 0, and then two callers can both construct the object
  (`ShmInit.TwoConstructions`, `ShmInit.SafeExactlyWhen`). `exchange_core/CMakeLists.txt:27` selects C++17 and
  `exchange_phemex/CMakeLists.txt:34` C++20. No file of the repository instantiates `WFMPMC`: the shared-memory
  queues of `shm.h:41-42` are the other two rings. So the failure awaits a C++20 user of this ring.
- **Unique acceptance.** A heartbeat uses the id and then increments it, while the auth request increments first.
  A heartbeat that is due in the `RunOnce` that sent the auth request, or later before the acceptance, therefore
  has the id of the auth request, and its reply is taken as acceptance once more
  (`TradeProtocol.AuthIdIsUniqueExactlyWhen`). The first `RunOnce` after `Connect` is such a case
  (`TradeProtocol.FirstHeartbeatRepeatsAuthId`).
- **Auth first.** The auth request is the first message given to the first session only if `RunOnce` has sent no
  heartbeat before `Connect` (`TradeProtocol.AuthIsFirstExactlyWhen`, `TradeProtocol.HeartbeatGivenFirst`).
  Whether such a heartbeat is ever written depends on the event loop, which is not modelled.
- **Wide numbers.** The order book narrows 64-bit prices and quantities to `int`. It says what the messages said
  if they fit (`OrderBook.BookIsVerbatim`). A change to the quantity 2^32 erases its level
  (`OrderBook.WideQuantityErases`); `OrderBook.ChangeIsPlainExactlyWhen` is the exact condition.

## Model

| member | source | states |
|---|---|---|
| MpmcSafety.RunKeepsInv | exchange_core/include/exchange-core/WFMPMC.h:96-241 | Every interleaving of any number of threads keeps one invariant over the words, counters, records, table, cells and logs. |
| MpmcSafety.ReachableInv | exchange_core/include/exchange-core/WFMPMC.h:40-52 | So the invariant holds in every state that any interleaving reaches from the constructor's image, for any SIZE and THR_SIZE. |
| MpmcTheorems.CellExclusion | exchange_core/include/exchange-core/WFMPMC.h:101-114 | At most one thread, writer or reader, is between a successful getWritable or getReadable and its commit on a cell. |
| MpmcTheorems.ReadIsUndisturbed | exchange_core/include/exchange-core/WFMPMC.h:162-187 | During a reader's data access the cell holds the live object that its write ticket put there, unchanged. |
| MpmcTheorems.LapLaw | exchange_core/include/exchange-core/WFMPMC.h:102-114 | A word k of cell j means that exactly the tickets below k of that residue class are written and read; a word ~k that in addition k is written. |
| MpmcTheorems.WriteAfterPreviousLap | exchange_core/include/exchange-core/WFMPMC.h:170-175 | The committed write of ticket k implies that ticket k - SIZE has been read and its cell released. |
| MpmcTheorems.DeliversWhatWasPushed | exchange_core/include/exchange-core/WFMPMC.h:162-187 | What read ticket k is delivered is exactly the value committed by write ticket k. |
| MpmcTheorems.EveryTicketAccountedFor | exchange_core/include/exchange-core/WFMPMC.h:131-146 | Every ticket drawn is either committed or held by exactly one record or one blocking call, never both. |
| MpmcTheorems.FailedTryKeepsTicket | exchange_core/include/exchange-core/WFMPMC.h:192-209 | A try call refused by its cell returns with the shared memory unchanged and its ticket still in its record. |
| MpmcTheorems.SizeCounts | exchange_core/include/exchange-core/WFMPMC.h:79-82 | size() is the number of full cells plus write tickets held minus read tickets held, in every reachable state; full cells are between 0 and SIZE. |
| MpmcTheorems.HintsAreExactWhenIdle | exchange_core/include/exchange-core/WFMPMC.h:84-94 | With no ticket held, empty() holds exactly if no cell is full, and full() exactly if all are. |
| MpmcRuns.NoTicketTwice | exchange_core/include/exchange-core/WFMPMC.h:96-187 | In no run is a ticket drawn, delivered or committed twice on its side. |
| MpmcRuns.CommitBeforeDraw | exchange_core/include/exchange-core/WFMPMC.h:96-99 | A ticket committed before another is drawn on the same side is the smaller one. |
| MpmcOrder.TicketOfCall | exchange_core/include/exchange-core/WFMPMC.h:131-146 | A call commits the ticket its record kept from a failed try, and otherwise one drawn during the call, whatever the others do meanwhile. |
| MpmcOrder.OrderOfCalls | exchange_core/include/exchange-core/WFMPMC.h:136-138 | A call that begins after another has completed gets the larger ticket if and only if it is blocking, keeps no ticket, or keeps a larger one. |
| MpmcCalls.EveryCallBegins | exchange_core/include/exchange-core/WFMPMC.h:117-146 | An idle thread that calls is in that very call at once, with the shared memory unchanged. |
| MpmcCalls.EveryCallCommitsOrGivesUp | exchange_core/include/exchange-core/WFMPMC.h:117-146 | In every interleaving, a call that returns has committed a ticket of its side and its own value, if and only if it is blocking or does not give up; a try call gives up exactly if at its last step all entries are other threads' or its cell refuses its ticket, which its record then keeps. |
| MpmcCalls.NoCallCommitsTwice | exchange_core/include/exchange-core/WFMPMC.h:117-146 | No call commits more than one ticket. |
| MpmcRetry.RetriedPushOvertakes | exchange_core/include/exchange-core/WFMPMC.h:136-144 | A reachable state in which y has been pushed under ticket 3 and from which a new call pushes z under ticket 2. |
| MpmcThreads.RecordsArePrivate | exchange_core/include/exchange-core/WFMPMC.h:219-241 | At any two times of a run, two threads in try calls have the same record if and only if they are the same thread. |
| MpmcThreads.NullMeansFull | exchange_core/include/exchange-core/WFMPMC.h:225-240 | getThrIdx gives up only when every entry belongs to another thread, under any interleaving of the CAS attempts. |
| MpmcThreads.FullIsForever | exchange_core/include/exchange-core/WFMPMC.h:239-240 | A table full of other threads stays so for the rest of the run, and the thread never gets a record. |
| MpmcThreads.EnoughEntries | exchange_core/include/exchange-core/WFMPMC.h:26-28 | If at most THR_SIZE distinct threads make try calls, getThrIdx never returns null, whatever number of other threads make blocking calls. |
| MpmcCapacity.EnoughExactlyWhen | exchange_core/include/exchange-core/WFMPMC.h:219-241 | A set of threads never gets null, in every run in which only they make try calls, if and only if the table has an entry for each of them. |
| MpmcThreads.TryCallsAreWaitFree | exchange_core/include/exchange-core/WFMPMC.h:128-146 | A try call returns within 2 * THR_SIZE + 9 steps of its own thread, whatever the others do. |
| MpmcProgress.SomeoneCanProceed | exchange_core/include/exchange-core/WFMPMC.h:102-114 | If a write ticket and a read ticket are held, the cell of some held ticket lets its holder in. |
| MpmcProgress.StuckExactlyWhen | exchange_core/include/exchange-core/WFMPMC.h:162-175 | Nobody can proceed if and only if only writers at read_idx + SIZE or beyond, or only readers at write_idx or beyond, are left. |
| MpmcProgress.CommitsArePaidFor | exchange_core/include/exchange-core/WFMPMC.h:96-114 | Over any run, commits plus tickets outstanding at the end equal tickets outstanding at the start plus tickets drawn. |
| MpmcProgress.GrantIsKept | exchange_core/include/exchange-core/WFMPMC.h:102-114 | In every run, a cell that grants a ticket goes on granting it until that very ticket is committed. |
| MpmcProgress.GrantedTicketCommits | exchange_core/include/exchange-core/WFMPMC.h:118-126 | A ticket whose cell grants it is committed after five more steps of its holder, under any interleaving. |
| MpmcLiveness.CommitsComeToAnEnd | exchange_core/include/exchange-core/WFMPMC.h:117-187 | In an endless run in which every thread goes on taking steps and tickets are no longer drawn, commits end, and then nobody in a call could be let in. If whoever kept a ticket tries again, only writers at read_idx + SIZE or beyond, or only readers at write_idx or beyond, or nobody is left. |
| MpmcStarvation.CommittedExactlyWhen | exchange_core/include/exchange-core/WFMPMC.h:117-209 | No ticket starves: in an endless run in which every thread goes on taking steps and whoever kept a ticket tries again, write ticket k is committed some day if and only if it and read ticket k - SIZE are drawn, and read ticket k if and only if it and write ticket k are. |
| MpmcStarvation.BlockingCallersNeverGiveUp | exchange_core/include/exchange-core/WFMPMC.h:117-126 | If all calls are emplace and pop, every ticket held is at any time in the hands of its caller, so that the two results above need no condition on retries. |
| MpmcLifetime.EveryObjectDestroyedOnce | exchange_core/include/exchange-core/WFMPMC.h:68-77 | After any run and the destructor, with nobody inside a cell, every object constructed has been destroyed exactly once and no empty cell was touched. |
| MpmcLifetime.NeverDestroyedTwice | exchange_core/include/exchange-core/WFMPMC.h:170-175 | At any time an object has been built at most once and destroyed at most as often as built. |
| MpmcRefinement.RunRefines | exchange_core/include/exchange-core/WFMPMC.h:96-187 | Every run is, step by step, a run of a bounded queue of numbered places, each put once and taken once with the value put. |
| MpmcRefinement.NeverOverfull | exchange_core/include/exchange-core/WFMPMC.h:96-187 | At any time of any run, every value delivered was pushed under its number, and at most SIZE values are pushed and not delivered. |
| MpmcRefinement.FirstInFirstOut | exchange_core/include/exchange-core/WFMPMC.h:117-187 | With no ticket outstanding, the values delivered are the front of the values pushed, in ticket order, and at most SIZE are left. |
| MpmcSolo.NullExactlyWhenFull | exchange_core/include/exchange-core/WFMPMC.h:219-241 | Uninterrupted, getThrIdx returns null if and only if every entry is taken by another thread. |
| MpmcSolo.EntryIsFoundAgain | exchange_core/include/exchange-core/WFMPMC.h:229-231 | In a reachable state a thread with an entry finds that same entry. |
| MpmcSolo.TryPushIsRun | exchange_core/include/exchange-core/WFMPMC.h:131-146 | tryVisitPush, uninterrupted, is a run of the machine from a reachable state to a reachable state, and commits its ticket exactly when it returns true. |
| MpmcSolo.TryPopIsRun | exchange_core/include/exchange-core/WFMPMC.h:192-209 | tryVisitPop, uninterrupted, is a run of the machine, and hands its visitor exactly what its ticket is delivered. |
| WfMpmcClass.WfMpmc.constructor | exchange_core/include/exchange-core/WFMPMC.h:40-52 | Cell i starts free for ticket i, the counters at 0, the table empty and every record at -1. |
| WfMpmcClass.WfMpmc.GetWriteIdx | exchange_core/include/exchange-core/WFMPMC.h:96-99 | Returns the next write ticket and moves only the write counter. |
| WfMpmcClass.WfMpmc.GetReadIdx | exchange_core/include/exchange-core/WFMPMC.h:157-160 | Returns the next read ticket and moves only the read counter. |
| WfMpmcClass.WfMpmc.GetWritable | exchange_core/include/exchange-core/WFMPMC.h:102-108 | Gives the ticket's cell if and only if the machine grants it for writing. |
| WfMpmcClass.WfMpmc.GetReadable | exchange_core/include/exchange-core/WFMPMC.h:162-168 | Gives the ticket's cell if and only if the machine grants it for reading. |
| WfMpmcClass.WfMpmc.CommitWrite | exchange_core/include/exchange-core/WFMPMC.h:110-114 | Stores the complement of the ticket in its cell's word and changes nothing else. |
| WfMpmcClass.WfMpmc.CommitRead | exchange_core/include/exchange-core/WFMPMC.h:170-175 | Empties the cell and hands its word to the ticket one lap later, and changes nothing else. |
| WfMpmcClass.WfMpmc.GetThrIdx | exchange_core/include/exchange-core/WFMPMC.h:219-241 | The probe loop finds the entry that the search function of MpmcSolo finds, and claims it. |
| WfMpmcClass.WfMpmc.TryVisitPush | exchange_core/include/exchange-core/WFMPMC.h:131-146 | The new fields and the result are those of the run that MpmcSolo.TryPushIsRun describes. |
| WfMpmcClass.WfMpmc.TryVisitPop | exchange_core/include/exchange-core/WFMPMC.h:192-209 | The new fields and the result are those of the run that MpmcSolo.TryPopIsRun describes. |
| WfMpmcClass.WfMpmc.Destroy | exchange_core/include/exchange-core/WFMPMC.h:68-77 | The destructor's loop destroys the objects of exactly the cells whose word is negative. |
| ShmInit.SafeExactlyWhen | exchange_core/include/exchange-core/WFMPMC.h:54-66 | For any set of racing callers, the constructor runs once and nobody returns before it is complete, in all interleavings, if and only if construction leaves init_state alone or there is one caller. |
| ShmInit.TwoConstructions | exchange_core/include/exchange-core/WFMPMC.h:57-65 | If construction resets init_state, three steps of two callers start the constructor twice. |
| ShmInit.FirstCallerConstructs | exchange_core/include/exchange-core/WFMPMC.h:57-66 | If construction leaves init_state alone, the first caller has constructed and published the object once it has taken one step for each field and three more, and not before. |
| ShmInit.EveryCallerReturns | exchange_core/include/exchange-core/WFMPMC.h:58-63 | From then on every caller returns within two steps of its own. |
| LogRing.LatestIsItself | exchange_core/include/exchange-core/WFSPSC.h:71-75 | The cell of index i is last written by entry i exactly while w - SIZE < i <= w. |
| LogRing.LatestIsGreatest | exchange_core/include/exchange-core/WFSPSC.h:107-111 | Of all entries that fall into a cell, the closed form picks the last one. |
| Spsc.ClosedForm | exchange_core/include/exchange-core/WFSPSC.h:44-133 | After any operations, guarded or not, both indices and every cell are what the history since the last reset determines. |
| Spsc.PopReturns | exchange_core/include/exchange-core/WFSPSC.h:114-121 | The next pop returns the last entry of its cell since the reset, which is the entry of its own index exactly while that one exists and is not lapped. |
| Spsc.WfSpsc.TryVisitPush | exchange_core/include/exchange-core/WFSPSC.h:90-97 | Stores the value in the cell of writeIdx + 1, publishes that index and changes nothing else. |
| Spsc.WfSpsc.Pop | exchange_core/include/exchange-core/WFSPSC.h:114-121 | Returns the cell of readIdx + 1 and advances readIdx only. |
| Spsc.WfSpsc.Reset | exchange_core/include/exchange-core/WFSPSC.h:55-59 | Clears both indices and leaves the cells as they are. |
| SpscThreads.ReturnsWhatWasPushed | exchange_core/include/exchange-core/WFSPSC.h:79-97 | With both guards, in every interleaving of data accesses and publications, the values published and the one under way are the values offered when the producer was idle and there was room, in order; the values returned are the front of them, at most SIZE behind; every third step after its guard publishes or returns one. |
| SpscThreads.RefinesQueue | exchange_core/include/exchange-core/WFSPSC.h:114-133 | Each publication appends the next value offered and accepted to the queue, each completed pop removes its front, and no other step changes the queue. |
| SpscThreads.NeverSameCell | exchange_core/include/exchange-core/WFSPSC.h:79-85 | The producer never stores into the cell that the consumer is loading. |
| SpscThreads.GuardIsNeeded | exchange_core/include/exchange-core/WFSPSC.h:44-53 | A write leaves all unread entries in place if and only if it starts with writeIdx - readIdx < SIZE. |
| Spmc.EntriesArePushed | exchange_core/include/exchange-core/WFSPMC.h:46-86 | In every run the published entries are exactly the values pushed since the last setWriteIdx, in order, and the index counts them from the one that it set. |
| Spmc.ReadersReadWhatTheyAsk | exchange_core/include/exchange-core/WFSPMC.h:95-109 | A reader is reading, or has read, the index that it asked for last. |
| Spmc.ReadExactlyInWindow | exchange_core/include/exchange-core/WFSPMC.h:95-109 | A reader that asks for a published index gets exactly the entry that had been published under it, whatever happens during the read, if and only if the write one lap later has not begun when the read ends. |
| Spmc.WindowSuffices | exchange_core/include/exchange-core/WFSPMC.h:66-86 | A reader that asks for a published index gets its entry if at the end of the read the index is still in (writeIdx + 1 - SIZE, writeIdx], even while a push is storing data. |
| Spmc.ReadersAgree | exchange_core/include/exchange-core/WFSPMC.h:103-121 | Two readers of one index that stay in the window get the same value, whenever each of them reads. |
| Spmc.WfSpmc.SetWriteIdx | exchange_core/include/exchange-core/WFSPMC.h:46-49 | The move SetIndex of the machine: a new index, the cells as they are. |
| Spmc.WfSpmc.TryVisitPush | exchange_core/include/exchange-core/WFSPMC.h:77-86 | Uninterrupted, the three moves of a push of the machine: one more entry in the log, stored in its cell, no other cell changed. |
| Spmc.WfSpmc.Pop | exchange_core/include/exchange-core/WFSPMC.h:103-109 | Returns the cell of the given index, which is the entry of that index if it has been published and writeIdx is less than a lap ahead. |
| OrderBook.BookMeansLastUpdate | exchange_phemex/include/exchange-phemex/MarketDataService.hpp:114-185 | After any history, a price stands with a quantity exactly if its last update since the symbol's latest snapshot, both numbers narrowed to int, is a snapshot level, or a nonzero change, of that quantity. |
| OrderBook.BookIsVerbatim | exchange_phemex/include/exchange-phemex/MarketDataService.hpp:114-185 | If the prices and quantities since the latest snapshot fit an int, the book has exactly the prices and quantities of the last updates as they were sent. |
| OrderBook.NarrowedExactlyWhen | exchange_phemex/include/exchange-phemex/MarketDataService.hpp:131-132 | The narrowing changes no update of a side exactly if all prices and quantities fit an int. |
| OrderBook.ChangeIsPlainExactlyWhen | exchange_phemex/include/exchange-phemex/MarketDataService.hpp:154-182 | A change does to every book what the message says if and only if its price and its quantity fit an int. |
| OrderBook.WideQuantityErases | exchange_phemex/include/exchange-phemex/MarketDataService.hpp:156-161 | A change to the quantity 2^32 erases its level. |
| OrderBook.IncrementalTwice | exchange_phemex/include/exchange-phemex/MarketDataService.hpp:144-185 | Applying an incremental message twice equals applying it once. |
| OrderBook.SnapshotForgets | exchange_phemex/include/exchange-phemex/MarketDataService.hpp:114-143 | After a snapshot, two histories that differ only before it have the same book for that symbol. |
| OrderBook.MarketDataService.StoreLevels | exchange_phemex/include/exchange-phemex/MarketDataService.hpp:127-134 | The snapshot loop stores every level, the last one of a price winning, zero quantities included. |
| OrderBook.MarketDataService.ChangeBids | exchange_phemex/include/exchange-phemex/MarketDataService.hpp:154-167 | The bid loop computes the common change function. |
| OrderBook.MarketDataService.ChangeAsks | exchange_phemex/include/exchange-phemex/MarketDataService.hpp:168-182 | The ask loop, which stores before it erases, computes the same change function as the bid loop. |
| OrderBook.MarketDataService.OnMessage | exchange_phemex/include/exchange-phemex/MarketDataService.hpp:108-205 | Applies the message to its symbol's book only, and emits the highest bid and the lowest ask with their quantities. |
| WsSession.WhatARunDoes | exchange_phemex/include/exchange-phemex/WSConnection.hpp:172-252 | What every run comes to, from its events alone: the session is connected exactly if a handshake has succeeded; the messages given by send and by the listeners are delivered and queued in their order; each success of a write delivers one and starts the next, until a write fails. |
| WsSession.NothingLostOrStalled | exchange_phemex/include/exchange-phemex/WSConnection.hpp:172-252 | In every run, writes completed and messages queued are together the messages given to the session, in order; at most one write is in flight; a connected session with a queue is sending. |
| WsSession.FailedWriteIsFinal | exchange_phemex/include/exchange-phemex/WSConnection.hpp:240-252 | After a failed write no write is started on the session again, whatever is sent and whatever calls back. |
| WsSession.QueueDrains | exchange_phemex/include/exchange-phemex/WSConnection.hpp:240-252 | While writes succeed, n completions deliver exactly the first n messages of the queue. |
| WsSession.Session.Send | exchange_phemex/include/exchange-phemex/WSConnection.hpp:215-219 | Queues the message and starts a write exactly if the session is connected and idle. |
| WsSession.Session.CheckSend | exchange_phemex/include/exchange-phemex/WSConnection.hpp:221-227 | Starts the write of the front if connected, idle and nonempty, and otherwise changes nothing. |
| WsSession.Session.InitiateTx | exchange_phemex/include/exchange-phemex/WSConnection.hpp:229-238 | Marks the session as sending and starts the write of the front, which stays in the queue. |
| WsSession.Session.HandleTx | exchange_phemex/include/exchange-phemex/WSConnection.hpp:240-252 | A success removes the front and goes on with the next message; a failure keeps the queue and the sending state. |
| WsSession.Session.OnHandshake | exchange_phemex/include/exchange-phemex/WSConnection.hpp:172-186 | A handshake connects the session, starts the first queued write and then sends what the listeners send. |
| TradeProtocol.EveryFailureReconnects | exchange_phemex/include/exchange-phemex/TradeService.hpp:86-103 | There is one session and one more for every RunOnce whose callback reported a failure: of a handshake, of a write in flight, or of a read. |
| TradeProtocol.EachCallSends | exchange_phemex/include/exchange-phemex/TradeService.hpp:86-103 | Every call sends exactly the requests that are due, a subscription for an accepting reply, an auth request on the new session for a failure, a heartbeat after the interval, with ids that count all requests, and leaves no wish to reconnect behind. |
| TradeProtocol.EverySessionIsARun | exchange_phemex/include/exchange-phemex/TradeService.hpp:178-202 | Every session is a run of WsSession on exactly the callbacks delivered to it and the requests sent on it, in order, so that WsSession.WhatARunDoes says what it has written. |
| TradeProtocol.LateReplyIsIgnored | exchange_phemex/include/exchange-phemex/TradeService.hpp:532-546 | A reply to any request of an earlier session never has the current auth id and has no effect. |
| TradeProtocol.IdsBeforeAuthAreSmaller | exchange_phemex/include/exchange-phemex/TradeService.hpp:521-523 | Every id issued before the current auth request is strictly smaller than its id, over any number of reconnects. |
| TradeProtocol.AuthIdIsUniqueExactlyWhen | exchange_phemex/include/exchange-phemex/TradeService.hpp:736-741 | After Connect, only the auth request carries the current auth id, if and only if no heartbeat has been due since it, in the same RunOnce or before an accepting reply. |
| TradeProtocol.FirstHeartbeatRepeatsAuthId | exchange_phemex/include/exchange-phemex/TradeService.hpp:86-103 | Connect and then RunOnce issue an auth request and a heartbeat with the same id 1001. |
| TradeProtocol.AuthIsFirstExactlyWhen | exchange_phemex/include/exchange-phemex/TradeService.hpp:178-186 | The first message given to every session is its auth request, if and only if RunOnce sent no heartbeat before Connect; the first message written on a session is the first one given to it. |
| TradeProtocol.HeartbeatGivenFirst | exchange_phemex/include/exchange-phemex/TradeService.hpp:86-103 | RunOnce and then Connect give the first session a heartbeat with id 1000 before the auth request with id 1002. |
| TradeProtocol.TradeService.constructor | exchange_phemex/include/exchange-phemex/TradeService.hpp:43-48 | Starts with one session that is not connected, id 1000 and no auth id of its own. |
| TradeProtocol.TradeService.Connect | exchange_phemex/include/exchange-phemex/TradeService.hpp:50-60 | Starts the first session and sends the auth request on it. |
| TradeProtocol.TradeService.SendAuth | exchange_phemex/include/exchange-phemex/TradeService.hpp:521-529 | Increments the id, remembers it as the auth id and sends it on the current session. |
| TradeProtocol.TradeService.SendSubscribe | exchange_phemex/include/exchange-phemex/TradeService.hpp:197-202 | Increments the id and sends a subscription with it on the current session. |
| TradeProtocol.TradeService.SendHeartbeat | exchange_phemex/include/exchange-phemex/TradeService.hpp:736-741 | Sends the current id on the current session and then increments it. |
| TradeProtocol.TradeService.OnReply | exchange_phemex/include/exchange-phemex/TradeService.hpp:538-546 | Subscribes if and only if the reply has the auth id. |
| TradeProtocol.TradeService.OnError | exchange_phemex/include/exchange-phemex/TradeService.hpp:173-176 | Asks for a reconnect and changes nothing else. |
| TradeProtocol.TradeService.Reconnect | exchange_phemex/include/exchange-phemex/TradeService.hpp:178-186 | Replaces the session by a new one, sends the auth request on it and withdraws the wish to reconnect. |
| TradeProtocol.TradeService.Upkeep | exchange_phemex/include/exchange-phemex/TradeService.hpp:90-102 | Reconnects if asked to, then sends a heartbeat if more than 29000 have passed since the last. |

## Left out

- The spin loops of `emplace` and `pop` are steps of the machine only. As methods they would not end without other threads, so `WfMpmc` has no `Emplace` and `Pop`.
- Memory orders: atomics are sequentially consistent. The release and acquire on `stat` are assumed to carry the hand-off of the data.
- Overflow of the 64-bit tickets and indices, and the layout of the objects in memory.
- The restriction of `SIZE` and `THR_SIZE` to powers of two: the proofs hold for all positive sizes.
- `tryPush` and `tryPop`, which wrap the visitor forms. `tryPush` moves its argument away even if it fails.
- Visitors and constructors that throw, or that call the queue again.
- A thread that draws several tickets with `getWriteIdx` at once: each such ticket behaves as that of a separate blocking caller.
- Moving out of a cell of the two unchecked rings: reads copy, as for the `Message` structs that `shm.h:41-42` puts in them.
- JSON parsing, the scaling of prices and timestamps, and messages without a book. An incremental message without a book for its symbol, and a message that leaves a side empty, read through end iterators in the source; `OnMessage` requires that neither happens.
- Trade messages: the side is decoded by comparing a pointer with a string literal.
- The network, TLS, DNS, HTTP, clocks, HMAC signatures and logging. Completions, failures, replies and times are arbitrary inputs.
- The HTTP session, whose send side repeats the websocket session, and the order entry of `TradeService.hpp`.
- A second call of `Connect`, which would start the same session again and register its listener twice.
- TradeProtocol.TradeService.Upkeep: the callback that `poll_one` delivers comes from the session objects in the source; here it is a separate call, and only the value model runs both as one `RunOnce`.
