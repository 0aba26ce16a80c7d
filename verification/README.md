# Verification of the file server

A Dafny model of a small multi-threaded file server that serves `GET` and `PUT` requests in
rounds, under one of four scheduling policies: FCFS, SJF, round robin (RR) and deficit round robin
(DRR). An acceptor hands connections to parser threads, parsers put requests into a shared queue,
workers take them out, serve one budgeted round, and put unfinished requests back.

`dafny verify dfyconfig.toml` checks the project.

## How it is organised

| modules | content |
|---|---|
| `Common`, `Sums`, `Decimals`, `Lines` | bytes, sums over sequences, decimal numerals, the line structure of a file and the line reader |
| `Rounds`, `Drr`, `RoundRobin` | one round and whole runs of a request as functions on values; closed forms, round counts, optimality |
| `Delivery`, `Packets`, `Net` | what goes over the wire; grouping of writes; partial writes and arbitrary chunks |
| `Scheduling`, `Paths`, `Serving`, `Uploads`, `Worker` | where names lead; the request, scheduler, connection and directory objects, and the methods that serve rounds, proved against `Rounds` |
| `Ledger`, `WorkerLoop` | the worker thread's loop over these objects, and the books it keeps |
| `Queues`, `Sjf`, `ServerOrder` | the two queues as objects; the order in which SJF drains them, also in the whole server |
| `Pools`, `Tasks`, `Protocol` | all threads as one state machine: any number of parsers and workers, spurious wakeups, `notify_one` that may be lost |
| `Safety`, `Conservation`, `Liveness`, `Guarantees`, `Termination`, `Fairness` | what holds in every reachable state and over every run |
| `Reassembly` | header, status line and body from a stream split anywhere |
| `Storage` | the served directory under interleaved uploads |
| `Directory`, `Operations`, `NameClash` | the state machine of all threads together with the directory; rounds of the worker objects as its histories; what clashing names do to it |
| `Json`, `JsonParser`, `JsonPrint`, `JsonValues`, `JsonExact` | the configuration reader as functions, as a cursor object, and against a printer, in both directions |

A file is a byte sequence that does not change while a GET reads it. A connection's input is an
arbitrary list of chunks. A failing send, disk operation or round is a nondeterministic outcome.
The wait in `wait_pop` is the precondition of the queue object's method and a step of its own in
the state machine. There the budget is drawn in the step that ends the round, not in the one that
takes the request; nobody can tell, because the budget touches only the request its worker holds.

## What was found

* DRR adds its quantum to a 64-bit deficit without a check (`scheduling.cpp:111`). On numbers alone
  the round count of a GET holds for all files of a size exactly when `ceil(total / Q) · Q < 2^64`
  (`Drr.FitsIsExact`). The server cannot get there: the size of a GET is a file length, below
  `2^63` (`file_io.cpp:30-36`), and for all of those every quantum is safe (`Drr.EveryFile`).
  Uploads save nothing up and need no condition.
* Whether a header line longer than 8192 bytes is accepted depends on how TCP split it, exactly
  when its newline is at a position from 8192 up to 12286 (`Reassembly.SplitIndependence`).
* Staging files share the directory with visible files. A request whose name is the staging name
  of another breaks the promise that visible files are whole; no other choice of names does
  (`Storage.WholeExactly`, and for a running server with two workers `NameClash.WholeServerExactly`).
* DRR is not always ahead of RR: a first line longer than the quantum goes out at once under RR
  and has to wait under DRR (`RoundRobin.RrAhead`). For files of `n` bytes with lines of at most
  `L`, RR is never ahead exactly when `L <= Q` or `n <= Q` (`RoundRobin.NeverAheadExactly`).
* The configuration reader accepts exactly the printed documents of `JsonPrint`
  (`JsonExact.AcceptedExactly`). They go beyond RFC 8259 in two ways: vertical tab and form feed
  count as white space (`config.cpp:66-72`), and `\u` takes any four characters
  (`config.cpp:221-227`). They fall short of it in what has no representation: integers outside 64
  bits and reals that `stod` refuses.

## Model

| member | source | states |
|---|---|---|
| `Drr.GetClosedForm` | scheduling.cpp:110-149 | A DRR GET on any file: after `k` rounds that take place, `offset + deficit = k·Q` and `offset` is the largest line boundary not beyond `min(k·Q, total)`; the addition to `deficit` has not wrapped around. |
| `Drr.GetRoundCount` | server.cpp:59-108 | The GET takes exactly `ceil(total / Q)` rounds: round `k` takes place if and only if `k` is at most that, and only the last one reaches the end of the file. |
| `Drr.DeficitBelowNextLine` | server.cpp:85-97 | The line a DRR request waits for is longer than the deficit it has saved up. |
| `Drr.PutClosedForm` | scheduling.cpp:110-149 | A DRR PUT has received `min(k·Q, total)` bytes after `k` rounds; no size condition is needed because an upload saves nothing up. |
| `Drr.PutRoundCount` | server.cpp:272-285 | A DRR PUT takes exactly `ceil(total / Q)` rounds, the same number as a GET of that size. |
| `Drr.FitsIsExact` | scheduling.cpp:111 | A negative result with its exact condition: the round count holds for every file of a given size if and only if `ceil(total / Q) · Q < 2^64`; for every other size the 64-bit deficit wraps around on a file that is one line. |
| `Drr.OneLineWraps` | scheduling.cpp:111 | The witness of the failing direction: when the condition fails, a one-line file has sent nothing after its last expected round. |
| `Drr.FitsInPractice` | scheduling.cpp:110-115 | `total + Q <= 2^64`, or a file length, which is a signed 64-bit number, is enough for the condition. |
| `Drr.EveryFile` | file_io.cpp:30-36 | For every file that can exist (fewer than `2^63` bytes) and every quantum: closed form, exact round count, no overflow, without any further condition. |
| `Rounds.GetTakesUnique` | main.cpp:215-230 | For every policy the number of rounds of a GET is unique, and no round takes place after the request is finished. |
| `Rounds.OwnCounters` | main.cpp:218-223 | Over any number of GET rounds only RR changes the forfeits and the overrun counter, and only DRR the deficit. |
| `RoundRobin.Round` | server.cpp:59-108 | One RR round from a line boundary ends at the next-fit boundary, counts an overrun exactly when it sends one line longer than the quantum, and forfeits the unused rest of the quantum. |
| `RoundRobin.RunOnBoundaries` | server.cpp:73-108 | Every RR round that takes place starts at a line boundary inside the file and goes to the boundary the greedy choice gives. |
| `RoundRobin.NextIsMaximal` | server.cpp:76-107 | A round never stops while one more whole line would still have fitted. |
| `RoundRobin.Accounting` | main.cpp:218-223 | After every round that puts the GET back, `offset + forfeited_bytes = rounds·Q + overrun`, where the overrun is summed over exactly `a14_events` rounds. |
| `RoundRobin.ForfeitBounds` | main.cpp:218-223 | A round forfeits less than the length of the line that did not fit, and all forfeits together stay below the end of that line, so the counter cannot overflow. |
| `RoundRobin.TwoRounds` | server.cpp:76-107 | Any two consecutive RR rounds together send more than `Q` bytes. |
| `RoundRobin.Finishes` | server.cpp:76-107 | Every RR GET finishes, in some number `r` of rounds with `floor(r / 2)·(Q + 1) <= total`. |
| `RoundRobin.PutClosedForm` | scheduling.cpp:103-108 | An RR PUT has received `min(k·Q, total)` bytes after `k` rounds, and never forfeits, overruns or saves up anything. |
| `RoundRobin.PutRoundCount` | scheduling.cpp:103-108 | An RR PUT takes exactly `ceil(total / Q)` rounds, as under DRR. |
| `RoundRobin.RunIsSplit` | server.cpp:85-106 | The offsets of an RR run cut the file at line boundaries into pieces of at most `Q` bytes or single lines. |
| `RoundRobin.GreedyIsOptimal` | server.cpp:76-107 | No such split of the file has fewer pieces than the RR run has rounds. |
| `RoundRobin.DrrVersusRr` | scheduling.cpp:103-115 | The per-file step of the comparison: in each round DRR is at least as far as RR if and only if RR is not ahead of its granted quanta. |
| `RoundRobin.DrrDominatesRr` | scheduling.cpp:103-115 | If no line is longer than the quantum, DRR is at least as far as RR after every round, finishes, and needs no more rounds. |
| `RoundRobin.RrAhead` | server.cpp:85-97 | The input on which RR is ahead: a first line longer than the quantum is sent in the first RR round, while DRR has sent nothing. |
| `RoundRobin.NeverAheadExactly` | scheduling.cpp:103-115 | For a file size `n` and a bound `L <= n` on the lines: RR is never ahead of DRR on any such file if and only if `L <= Q` or `n <= Q`. |
| `Scheduling.Scheduler.Create` | scheduling.cpp:7-16 | RR and DRR without a quantum are refused, everything else is accepted. |
| `Scheduling.Scheduler.GetBudget` | scheduling.cpp:82-121 | The method draws the budget of the round functions and changes `deficit` accordingly, and nothing else. |
| `Scheduling.Scheduler.Account` | scheduling.cpp:124-150 | The method advances `rounds`, `offset` and `deficit` as the round functions say, and nothing else. |
| `Scheduling.Scheduler.ShouldRequeue` | scheduling.cpp:152-158 | A request is put back if and only if part of it is not transferred yet. |
| `Lines.LineEnd` | file_io.cpp:73-90 | A line ends at the first boundary after its start: behind the next newline or at the end of the file. |
| `Lines.ReadFileLine` | file_io.cpp:56-93 | The line reader fails only at the end of the file and otherwise returns the bytes up to the next boundary and that boundary. |
| `Serving.ValidIsContained` | file_io.cpp:7-18 | A file name is let through if and only if in every directory it leads to the entry of that directory with this name. |
| `Paths.ContainedExactly` | file_io.cpp:7-18 | Resolving `dir/name` at its slashes, with `.` and `..` taken as such, leads to that entry of every `dir` exactly for the names without a slash other than the empty one, `.` and `..`. |
| `Serving.SelectLines` | server.cpp:61-108 | The selection loop finds exactly the whole lines that fit the budget, or everything, or one overlong line that is counted. |
| `Serving.GatherPacket` | server.cpp:150-181 | A packet is the next `p` whole lines of the round or fewer at its end; the read-error and packetization-error exits are dead. |
| `Serving.SendPackets` | server.cpp:145-198 | A round that succeeds has written exactly the selected bytes in order, in the packets of the specification. |
| `Serving.ServeGet` | server.cpp:13-202 | One GET round for any packet size: the status line goes out once, then the selected bytes, and only of an entry of the served directory itself; it fails only for a name that is no such entry, a missing file, a bad packet size or a broken connection, and each of the first three is answered with its error line. |
| `Packets.PacketizationRefines` | server.cpp:145-198 | For every `p >= 1` the packets of a round join to the same bytes in the same order, and their number is `ceil(lines / p)`. |
| `Net.Connection.SendAll` | socket.cpp:149-174 | The partial-write loop hands over all bytes in order, also when some sends accept nothing, or fails having handed over a prefix. |
| `Net.FirstRecv` | socket.cpp:94-94 | One receive takes a prefix of the stream of at most the given size, and nothing only at its end. |
| `Delivery.RoundAdvance` | scheduling.cpp:131-139 | The `min` clamp never bites: a GET round advances `offset` by exactly the bytes it sent, from boundary to boundary. |
| `Delivery.StreamIsPrefix` | server.cpp:38-46 | Under every policy and quantum, also after a deficit wrap-around, the rounds so far have sent one status line and the file up to `offset`, which is a line boundary. |
| `Delivery.WholeFileDelivered` | server.cpp:38-198 | A finished GET has been sent its status line and the whole file, once and in order. |
| `Delivery.OneRound` | scheduling.cpp:97-101 | FCFS and SJF serve every request in one round. |
| `Delivery.EmptyGet` | server.cpp:38-46 | Under every policy a GET of an empty file takes exactly one round, which sends its status line and nothing else. |
| `Uploads.WriteLeftover` | server.cpp:285-311 | The bytes that came with the header line are appended to the staging file first. |
| `Uploads.ReceiveRest` | server.cpp:313-358 | Exactly the missing bytes are taken from the socket and appended, however the stream is split. |
| `Uploads.OpenStaging` | server.cpp:234-270 | The staging file is created empty in the first round only, and opened at the place the round continues; each failure has its cause and its error line. |
| `Uploads.ServePut` | server.cpp:204-362 | One PUT round appends exactly the next `min(budget, remaining)` bytes of the body to the staging file and changes no other file; a name is refused as bad if and only if it is not an entry of the served directory itself. Each refusal has its cause in this round (a bad name, an operation on this staging file that the operating system refused just now, a lost staging file, a stream that ends early) and sends exactly its error line. |
| `Uploads.RefusalText` | server.cpp:212-349 | The error line of every refusal, letter by letter. |
| `Uploads.WriteAtMeans` | server.cpp:261-264 | What a write at a position does to every byte of a file. |
| `Worker.TakeNext` | scheduling.cpp:19-79 | The request the policy chooses is popped (under SJF one with the fewest bytes, and of those one that arrived first; otherwise the head) and its budget drawn; nothing is returned only when the queue is closed, empty and nothing is in flight. |
| `Worker.ServeGetRound` | main.cpp:185-223 | The GET branch of the loop is one GET round of the specification, forfeits included, and sends its bytes. |
| `Worker.ServePutRound` | main.cpp:194-244 | The PUT branch keeps "the first `offset` bytes are staged and what is ahead is the rest of the body or a part of it"; the last round makes the whole body visible under its name; a round fails only because an operation on its own staging file was refused or the client stopped early, sends the error line of the cause, changes only the staging file and removes it, except that a complete one stays when all that was refused is the rename; both `OK 0` answers are sent. |
| `Worker.Publish` | main.cpp:232-244 | The rename moves the complete staging file to the name of the upload and is answered `OK 0`; a refused rename changes no file and is answered with its error line. |
| `Worker.ServeAndDecide` | main.cpp:182-249 | Each iteration ends in exactly one requeue or one complete, with the request, wire and files of one round. |
| `WorkerLoop.TakeTurn` | main.cpp:171-249 | One whole iteration, over the request, queue, connection and file objects, is one turn of the specification. |
| `WorkerLoop.WorkerThread` | main.cpp:164-250 | The worker loop on a closed queue ends, with the queue empty and nothing in flight; each request is finished or failed exactly once and every finished client was sent its whole answer. A GET fails only for a missing file, a bad packet size or a broken connection. If no request is named like the staging file of another, then whatever became of other uploads, the last upload to finish under a name is there in full, and an upload fails only because an operation on its own staging file was refused or because its own client stopped early. |
| `WorkerLoop.TurnLowers` | main.cpp:215-230 | Every iteration removes a request or strictly lowers the work that is left. |
| `Ledger.TurnKeeps` | main.cpp:171-249 | One iteration keeps everything the loop promises, whichever request it took and however the round went; clients that stop early and operations that are refused affect nothing but their own upload. |
| `Ledger.RefusedOnlyWhenFailed` | main.cpp:206-213 | No operation on the staging file of an upload that is queued or finished was ever refused: every refusal belongs to an upload that failed. |
| `Ledger.FreshIsSound` | main.cpp:108-114 | A server that starts with freshly parsed requests and silent connections satisfies what the loop needs. |
| `Ledger.SomeBody` | server.cpp:313-340 | Any stream is what a client sends of some body of the announced size, so the loop's results cover every client. |
| `Ledger.NothingFails` | main.cpp:206-213 | With the files in place, uploads that arrive in full under names that do not clash, no refused file operation and no broken connection no request fails and each is finished exactly once. |
| `Queues.BestIndex` | queue.h:95-100 | The index SJF chooses, in terms of the fields: no request has fewer bytes, none with as many arrived earlier, and none ahead of it in the queue has as many and arrived at the same time. |
| `Queues.BeforeMeans` | scheduling.cpp:37-47 | The comparison handed to `wait_pop_best` is fewer bytes first, then earlier arrival. |
| `Queues.BestIsUnique` | queue.h:95-100 | There is only one such index. |
| `Queues.RequestQueue.Push` | queue.cpp:3-14 | Appends, or refuses if and only if the queue is closed. |
| `Queues.RequestQueue.WaitPop` | queue.cpp:16-32 | Returns the oldest request and counts it in flight, or nothing when all work is done. |
| `Queues.RequestQueue.TryPop` | queue.cpp:34-44 | The same without waiting, also while requests are in flight. |
| `Queues.RequestQueue.WaitPopBest` | queue.h:82-106 | The scan removes exactly that request and leaves the others in order; no queued request has fewer bytes, or as many and an earlier arrival. |
| `Queues.RequestQueue.Requeue` | queue.cpp:46-57 | Appends at the tail, also when closed, and takes one request out of flight. |
| `Queues.RequestQueue.Complete` | queue.cpp:59-66 | Takes one request out of flight. |
| `Queues.FdQueue.WaitPop` | queue.cpp:108-120 | Hands out connections in order and reports the end only when closed and drained. |
| `Sjf.DrainIsStableSort` | queue.h:95-105 | Without arrivals, repeated `wait_pop_best` calls return the requests by ascending bytes, those with as many by ascending arrival, and those with the same of both in their order. |
| `Sjf.StableSortIsUnique` | scheduling.cpp:37-47 | There is only one stable sort, so that statement determines the order. |
| `Sjf.Drain` | queue.h:82-106 | The loop over `wait_pop_best` on a queue without arrivals returns exactly that order and leaves the queue empty. |
| `Sjf.CompletionSumIs` | scheduling.cpp:37-47 | The sum of the completion points (for each transfer, the bytes sent when it completes) in closed form. |
| `Sjf.DrainMinimisesCompletion` | scheduling.cpp:37-47 | With one worker no other order of the queued requests has a smaller sum of completion points in bytes. |
| `ServerOrder.SjfTakesSmallest` | queue.h:95-105 | In the whole server a worker under SJF takes a queued request with the fewest bytes, of those one that arrived first, and of those the first in the queue. |
| `ServerOrder.SjfTakesInDrainOrder` | scheduling.cpp:35-51 | In every run of the server under SJF in which nothing is queued, with any number of workers, requests are taken in the order in which the queue drains. |
| `ServerOrder.SjfServesInOrder` | scheduling.cpp:37-47 | Of two requests taken in such a run the one taken first has no more bytes, and with as many arrived no later. |
| `ServerOrder.SjfPutsNothingBack` | scheduling.cpp:100-101 | Under SJF no worker ever puts a request back. |
| `Tasks.ServedKeeps` | main.cpp:215-230 | A round by any worker leaves a request where its rounds should have brought it: waiting, or complete in the round of its last byte. |
| `Tasks.CompleteGetDelivered` | main.cpp:185-247 | A completed GET has sent its status line once and then the whole file. |
| `Tasks.CompletePutAnswered` | main.cpp:194-244 | A completed PUT has been answered exactly twice, before its body and after the commit. |
| `Tasks.CompleteDrrRounds` | scheduling.cpp:110-158 | A completed DRR request, GET or PUT, took exactly `ceil(total / Q)` rounds. |
| `Tasks.RankDecreases` | scheduling.cpp:152-158 | A request that is put back has strictly less to do: bytes under RR, remaining rounds under DRR. |
| `Safety.IntakeStep` | queue.cpp:95-129 | Every step of every thread keeps the connection queue's order and loses none of its wakeups. |
| `Safety.ShutdownStep` | main.cpp:401-416 | Every step keeps the shutdown order: parsers have returned before the request queue closes, so `push` never refuses a request. |
| `Safety.WorkStep` | queue.cpp:3-87 | Every step keeps `inflight_` equal to the number of workers holding a request, and loses no wakeup of a worker. |
| `Conservation.IdStep` | main.cpp:171-249 | Every step keeps, for each request id: admitted = queued + in service + finished + failed, at most once in all. |
| `Conservation.TasksStep` | main.cpp:171-249 | Every step keeps all requests on their prescribed course, whichever workers serve them. |
| `Conservation.RunKeeps` | main.cpp:351-416 | All of these hold after every run of any number of parsers and workers, in any interleaving with spurious wakeups. |
| `Conservation.ReachableKeeps` | main.cpp:351-416 | Every state the server can reach from its start satisfies all invariants. |
| `Liveness.NoLostWakeup` | queue.cpp:16-66 | While workers sleep every queued request has a ready worker or a pending notification; if all are blocked the queue is empty and open. |
| `Liveness.ReturnedMeansDrained` | queue.cpp:20-26 | A worker returns only when the queue is closed and empty, nothing is in flight, and each admitted request is finished or failed exactly once. |
| `Liveness.OverMeansDone` | main.cpp:401-416 | When main ends, every accepted connection was taken by a parser, no request was refused, and all admitted requests are done. |
| `Liveness.Progress` | queue.cpp:16-66 | No stuck state: some thread can step on its own unless the server is over, or idle with no shutdown requested. |
| `Guarantees.NoLostWakeup` | queue.cpp:16-66 | In every reachable state: sleeping workers are covered by ready workers or pending notifications, and if all workers sleep with none pending the queue is empty and open. |
| `Guarantees.NeverStuck` | queue.cpp:16-66 | In every reachable state some thread can step on its own, unless the server is over, or idle with no shutdown requested. |
| `Guarantees.ReturnedMeansDrained` | queue.cpp:20-26 | In every reachable state: a worker that has returned leaves nothing queued, in flight or lost. |
| `Guarantees.OverMeansServed` | main.cpp:401-416 | In every reachable state in which main has ended: all connections taken, no request refused or lost, and every finished GET was sent its whole file. |
| `Guarantees.RunsUntilAsked` | main.cpp:122-162 | In every run from the start without a signal the server keeps accepting: neither queue is closed, main waits for the acceptor, and no thread has returned. |
| `Guarantees.EverythingCanFinish` | main.cpp:164-250 | From every reachable state the server's own steps, without failing any further request, can finish every admitted request that has not failed, and can end the server if a shutdown was asked for. |
| `Guarantees.StopsWhenAsked` | main.cpp:401-416 | From every reachable state a signal is enough: by its own steps the server then finishes every admitted request that has not failed, and ends. |
| `Guarantees.OutsideIsFree` | main.cpp:122-250 | The results are about every environment: signals, connections, connections without a request, failing rounds and spurious wakeups are possible whenever they can be. |
| `Guarantees.IdleAdmits` | main.cpp:63-118 | An idle server admits whatever request the next client sends, a GET of any file or a PUT of any body, and wakes a worker for it. |
| `Termination.OwnStepsLower` | main.cpp:164-250 | Every step that is not caused from outside lowers a measure of unread connections and remaining work. |
| `Termination.SettlesUnlessDisturbed` | main.cpp:164-250 | No endless run is free of outside events from some point on: left alone, the server settles. |
| `Termination.CanSettle` | main.cpp:401-416 | From every reachable state the server's own steps lead to an idle or finished server. |
| `Fairness.BoundedWaiting` | queue.cpp:28-30 | Under FCFS, RR and DRR the request at index `k` is served after exactly `k` further takes, whatever is pushed or put back meanwhile. |
| `Fairness.FairRounds` | queue.cpp:46-57 | With one worker, over any stretch in which two requests stay, their round counts grow by amounts that differ by at most one. |
| `Fairness.FairBytes` | scheduling.cpp:110-149 | Under DRR their served bytes differ by at most the quantum plus the longest line of each. |
| `Fairness.DeficitBound` | scheduling.cpp:110-149 | A waiting DRR request satisfies `offset + deficit = rounds·Q` with a deficit of at most one line. |
| `Reassembly.ReadHeaderLine` | socket.cpp:97-147 | The reading loop, over any chunks, returns the line, the bytes read beyond it and the unread rest of the line-reading specification, or fails exactly when that does. |
| `Reassembly.EarlyNewline` | socket.cpp:110-144 | A newline among the first 8192 bytes is found, and leftover plus unread stream is exactly what follows it, however the stream is split. |
| `Reassembly.LateNewline` | socket.cpp:110-146 | Without a newline within reach of the last read the header is refused, however the stream is split. |
| `Reassembly.SplitIndependence` | socket.cpp:97-147 | A negative result with its exact condition: the line read is independent of the split if and only if the newline is not at a position from 8192 up to 12286. |
| `Reassembly.UploadStarts` | main.cpp:64-76 | After the header of a PUT everything the client sends of the body is ahead, whichever part of it came with the header, and it arrives in full if and only if all of it is sent. |
| `Reassembly.RecvExact` | client.cpp:83-127 | The client gets exactly the first `size` bytes of leftovers and stream, or fails because there are fewer. |
| `Reassembly.GetFile` | client.cpp:129-196 | For every chunking, a stream that is the status line and the file gives back the file. |
| `Storage.StagingInjective` | server.cpp:218-221 | A staging name determines the request, so two uploads never share one. |
| `Storage.VisibleFilesWhole` | main.cpp:206-244 | In every interleaving of uploads under non-clashing names, each non-staging name holds its first content or the whole body of the last upload committed to it, and each upload in progress has exactly its prefix staged. |
| `Storage.FailureChangesNothingVisible` | main.cpp:206-213 | An upload that fails, at any point, changes no visible file. |
| `Storage.ClashMixesUp` | server.cpp:218-221 | If one request is named like another's staging file, the interleaving given publishes the one's body under the other's name. |
| `Storage.WholeExactly` | server.cpp:218-247 | Visible files are whole in every interleaving if and only if no request is named like the staging file of another. |
| `Directory.HistoryKeeps` | main.cpp:164-250 | If no upload is named like the staging file of another: every history of all threads and their file operations keeps the invariants of the server, of the directory, and of how they go together. |
| `Directory.DirectoryIsWhole` | server.cpp:217-247 | If no upload is named like the staging file of another: after every history from the start, with any number of workers, clients and failures, each name that is not a staging name holds its first content or the whole body of the upload last published under it, and each upload that finished under it was published. |
| `Directory.DirectoryAtEnd` | main.cpp:401-416 | Under the same condition, when the server is over a name that is not a staging name holds the body of an upload that finished under it, or its first content if none did. |
| `Directory.CreatedInFirstRound` | server.cpp:234-247 | In every state of such a history a staging file is created only in the first round of its upload. |
| `Directory.RoundCanEnd` | server.cpp:204-362 | Under the same condition the file operations of a round never hold up a worker: on its own it can bring every round to its end. |
| `Operations.RoundIsHistory` | main.cpp:194-244 | A round of the worker object is a history of the whole server in which exactly that worker's file operations happen: create in the first round, append up to the end of the round, and with the last byte commit; a failing round drops the staging file or is refused the rename with the last byte. |
| `NameClash.ClashInServer` | server.cpp:218-221 | With two workers, under every policy and quantum: if one of the next two uploads is named like the staging file of the other, there is a history from the start after which a visible name holds the body of the wrong upload. |
| `NameClash.WholeServerExactly` | server.cpp:218-247 | For the next two uploads to a server with two workers or more: visible files are whole in every history, whatever the bodies, if and only if neither is named like the staging file of the other. |
| `JsonParser.Parser.ReadValue` | config.cpp:93-115 | The cursor never passes the end, and value and cursor are those of the functional reader. |
| `JsonParser.Parser.ReadMembers` | config.cpp:131-147 | The loop over an object's members terminates and keeps the first value of a repeated key. |
| `JsonParser.Parser.ReadElements` | config.cpp:166-174 | The loop over an array's elements terminates and collects them in order. |
| `JsonParser.Parser.ReadChars` | config.cpp:190-238 | The string loop decodes escapes and refuses raw control characters and unknown escapes. |
| `JsonParser.Parser.ReadNumber` | config.cpp:241-309 | The scanner accepts exactly the number grammar, and refuses integers outside 64 bits and reals that `stod` refuses. |
| `JsonParser.Parser.ReadText` | config.cpp:46-55 | The whole text must be one value, with nothing but white space around it. |
| `JsonPrint.SkipsBlanks` | config.cpp:66-72 | The reader skips space, tab, newline, carriage return, vertical tab and form feed, and no other character. |
| `JsonPrint.NumberRead` | config.cpp:241-309 | Every number literal of section 6 of RFC 8259 is read as a whole; it gets its value, or is refused if and only if it is an integer outside 64 bits or a real that `stod` refuses. |
| `JsonPrint.StringRead` | config.cpp:179-239 | Every string literal is read as what it spells, whichever characters are written as they are, as an escape of one letter, or as `\u` with four characters. |
| `JsonPrint.MembersRead` | config.cpp:131-147 | Printed members are read back, in order, the first of several equal keys winning. |
| `JsonPrint.ReadBack` | config.cpp:46-338 | Reading a printed document whose numbers are 64-bit integers or reals that `stod` accepts, with any of these six characters inserted between its tokens, gives the value it was printed from. |
| `JsonValues.PrintParse` | config.cpp:46-338 | Every value of objects, arrays, 64-bit integers, booleans, null and plain strings has a printed document, and all its documents read back as it. |
| `JsonExact.AcceptedExactly` | config.cpp:46-338 | Exact acceptance: a text is read as a value if and only if it is a printed document of that value with white space around it. |

## Left out

- WorkerLoop.WorkerThread: one worker on a queue that is already closed and with nothing in flight, because a sequential method cannot express waiting; arrivals and several workers are covered by the state machines of `Protocol` and `Directory`, on values.
- RoundRobin.Accounting: stated for rounds that put the request back, because the last round forfeits nothing.
- Net.Connection.SendAll: sends that accept nothing happen any finite number of times; `send_all` would repeat endless ones for ever. A connection that failed once is assumed to fail from then on.
- Fairness.FairRounds: SJF is excluded, because it does not take requests in queue order and has no such bound.
- Timeouts, `select`, signals and sockets as operating system objects: a receive that times out is the end of the stream.
- The `HEALTH` operation: answered by the parser and never queued, it appears only as a connection whose request is not admitted.
- Replacement of a file while a GET reads it; the server reopens the file for each line.
- A staging file that someone removes or changes from outside the server.
- Tokenising of request headers and the checks of `load_config`: branch by branch validation with easy claims.
- Wrap-around of the request id counter, which is a 32-bit integer.
- Metrics, clocks and percentiles; `arrival` is kept as the tie-break of SJF.
- The values of JSON real numbers: they are kept as their text, and which of them `stod` accepts is a parameter. A `\u` escape becomes a question mark in the reader as in the source.
- The load generator, the workload scripts and the client's upload command.
