# HVAC: a verified model of the distributed read cache

HVAC lets a preloaded client library intercept `open`, `read`, `pread`, `lseek` and `close`, sends the
operations on tracked files to the server the path hashes to, and lets each server copy closed files to
node-local storage in the background and redirect later opens to the copy. This project models the whole
path of an operation (client tables, RPC handshake, messages, server tables, data mover) and proves that
the application cannot tell: every descriptor behaves as a path and an offset over files that never change.

## How the model is built

* `Posix.dfy` describes one open file description of the plain file system: `read()`, `pread()` and
  `lseek()` as in POSIX.1-2017, System Interfaces. Short reads are allowed unless `fullReads` is set.
* `FileLaws.dfy` says what descriptors do in terms of the answers alone: positions are read off the answers, and
  reads and seeks are described byte by byte, so that no definition of the model vouches for itself.
* `Session.dfy` describes what one tracked descriptor gives its owner, for *all* arguments. It is the plain
  file system with three marks of the code left in: seek offsets and answers are 32-bit
  (`src/hvac_comm.h:22-24`), the pread offset -1 means "read sequentially" (`src/hvac_comm.cpp:226`), and a
  failed server read is answered with a full buffer of zeros (`src/hvac_comm.cpp:211`, `250-252`).
* `CacheServer.dfy` is one server as a labelled transition system. The progress thread runs handlers one at
  a time, the mover runs beside it, and every access to shared state is a step of its own: lookup and open;
  close, cache check, lock, signal, push, unlock, erase; lock, wait, wake (spurious wake-ups too), push to
  `local_list`, pop from `data_queue`, unlock, make the directory, create, copy one byte, publish, fail, pop.
  A label carries what is not the server's own choice: the number `open()` returns (any that is not in use),
  how much `read()` transfers, where a copy fails. Reads of `fd_to_path[...]` and `fd_redir_map[...]`
  through `operator[]` insert a default, also where they only feed a log line.
* `CacheClient.dfy` and `CacheSystem.dfy` add any number of clients, each with one application thread, and
  the message pool. Nothing is lost or duplicated; anything may be delivered next. Close requests have no
  answer. A read is served in one step; its bulk transfer completes, and its answer is sent, in another, by a
  callback on the server's progress thread between handlers. A server whose assertion failed takes no step.
* `ServerInvariant.dfy`, `SystemInvariant.dfy` prove what every step keeps, also where opens fail.
  `MoverTheorems.dfy`, `Transparency.dfy`, `SystemTheorems.dfy`, `Sessions.dfy`, `Completion.dfy` and
  `Calls.dfy` draw the conclusions. `Commutation.dfy`, `Renaming.dfy` and `UpToNames.dfy` say which steps
  commute, exactly or up to the names of RPC handles and server descriptors. `Copies.dfy` shows that copies,
  queues and movers cannot be observed, and `Exactness.dfy` that the specification allows nothing that no run
  shows. `Limits.dfy` holds a run with a lost wake-up.
* `ServerProcess.dfy` and `ClientProcess.dfy` hold the code in its own form: classes whose methods update
  maps, queues and buffers in place, with the source's loops. Each server method is proved equal to a
  function on the abstract state, lemmas prove that function to be a sequence of the atomic steps above, and
  the methods keep the server's invariant (`ServerProcess.StepsAreRuns` links such sequences to runs). A method
  is one thread's execution, in which the other thread moves only where this one waits for `data_mutex`;
  interleaving is covered by the transition system. `Calls.dfy` shows that what the client's wrapper methods
  compute is what the system's events show.
* `PortsFile.dfy` models the rendezvous file: printing, the `fscanf` loop, and the address cache.

## What is taken as given

* Files of the data directory do not change during a run, and the directory does not contain the mover's
  own (`CacheServer.Tracked`).
* Whether a server can fail to open an existing file is part of the configuration (`cfg.opensMayFail`). No
  theorem but those that say so depends on it.
* A server read fails only on a bad descriptor or a negative offset; other I/O errors are not modelled.
* Counts are at least 1 and below 2^31, and no seek asks for data or holes (`Session.ValidCall`).
* At least one server (`CacheServer.Count`), and all clients compute the same hash.
* One application thread per client process. Tracked descriptors enter by `open`/`open64` and leave by the
  wrapped `close`.
* Each access to a map, queue or flag is atomic, and so is the appending of a line to the ports file.
* `mkdtemp()` returns a name it has not returned before, directly under the node-local root.

Premises of this kind appear as `requires` clauses, as guards of the steps, or in what a step is.

## Where the code differs from what it intends

* Transparency holds exactly for calls in range: `Session.InRange` is the condition, on the call and the
  descriptor's size and offset, and both directions are proved. `Session.PreadSentinelShows` and
  `Session.SeekWrapShows` are two calls outside it, and every call outside it shows in some run
  (`Exactness.OutOfRangeShows`).
* A failed server open is answered with -1 and the application is not told. Reads on that descriptor give
  zeros, seeks give -1 (`Session.Unserved`; `Session.UnservedAgreesIff` says when that is right), and the close
  fails the server's assertion: a served close aborts the server if and only if its open had failed
  (`SystemTheorems.CloseAbortsIff`, `SystemTheorems.AbortedIff`), and some run aborts a server if and only if
  opens may fail and there is a file to open (`Completion.AbortsIffOpensMayFail`). All other descriptors stay
  transparent in the same run.
* "Every closed file is eventually cached" is false: the mover waits without testing the queue
  (`src/hvac_data_mover.cpp:35-36`), so a signal sent while it is elsewhere is lost (`Limits.LostWakeup`).
  `MoverTheorems.AllProcessedIffNoneMissed` says exactly when a server at rest has handled everything.
* The fallback to the real descriptor after a remote read that returns -1 (`src/wrappers.c:207-210`) is
  never taken (`SystemTheorems.FallbackNeverTaken`).

## Model

| member | source | states |
|---|---|---|
| Transparency.Transparency | src/hvac_comm.cpp:197-346 | In every run, with any clients, interleaving, deliveries and copies, what the applications observe is allowed by a specification that keeps a path and an offset per descriptor; on the descriptors the servers could open it agrees with the plain file system, answer by answer and offset by offset, if and only if the calls are in range, also in runs where other opens fail |
| Transparency.EveryRunIsServed | src/wrappers.c:80-289 | Every trace of opens, answers and closes is one of the per-descriptor specification, for all arguments, in range or not |
| Exactness.SpecificationIsExact | src/wrappers.c:80-289 | A sequence of events is the trace of some run, for some interleaving, delivery and choice of the operating system, if and only if the specification accepts it (and its clients, descriptor numbers, paths and calls are ones that are modelled) |
| Exactness.OutOfRangeShows | src/wrappers.c:80-289 | For every tracked file and every call out of range on it there is a run that opens the file, makes the call, and disagrees with the plain file system |
| Transparency.StepIsSimulated | src/hvac_comm.cpp:197-346 | Forward simulation: one step of any client, message, handler or mover is matched by the events it shows in the specification, and the relation between server offsets and specified offsets is kept |
| Transparency.RunSimulated | src/hvac_comm.cpp:197-346 | The simulation over whole runs from any related pair of states |
| Transparency.InRangeIffAgrees | src/hvac_comm.h:18-24 | Along any served trace: all calls on opened descriptors in range if and only if the plain file system may answer the same and end at the same offset every time |
| Transparency.AgreeingIsPosix | src/wrappers.c:187-289 | A served trace that agrees at every answer is a trace of the plain file system |
| FileLaws.RunRead | src/hvac_comm.cpp:226-258 | In every run, on a descriptor the server could open, a sequential read gives, byte by byte, the file from the position that the answers before it tell, and a pread the file from its offset; the count is the smaller of what was asked and what is there when the operating system does not read short, and zero only at the end |
| FileLaws.RunSeek | src/hvac_comm.cpp:341 | In every run a seek answers the distance of its target from the start of the file, counted from the start, from the position the answers tell, or from the end; -1 before the start |
| FileLaws.RunEndIsSize | src/hvac_comm.cpp:341 | In every run a seek to the end answers the size of the file |
| FileLaws.RunReadsFollow | src/hvac_comm.cpp:226-258 | In every run, reads after any calls assemble a prefix of the file from the position that the answers tell, and all of it once a read gives 0 |
| FileLaws.SeekThenReads | src/hvac_comm.cpp:226-341 | In every run, reads after a seek that was answered p assemble a prefix of the file from p, and all of it once a read gives 0 |
| FileLaws.LastBytes | src/hvac_comm.cpp:226-341 | In every run, after a seek to k bytes before the end, reading until 0 assembles exactly the last k bytes |
| FileLaws.WholeFileInOneRead | src/hvac_comm.cpp:226-258 | In every run without short reads, one read into a large enough buffer right after the open gives the whole file |
| FileLaws.AnswersTellPosition | src/hvac_comm.cpp:226-341 | As long as seeks are in range, a descriptor is where its answers say: where the last answered seek went, and past what was read since |
| FileLaws.ReadLaw | src/hvac_comm.cpp:226-258 | One read gives the bytes at the position and moves past them; one pread gives those at its offset (zeros below -1) and moves nothing |
| FileLaws.ReadAtIff | src/hvac_comm.cpp:226-258 | The answers a read may give are exactly those described byte by byte, short reads included |
| FileLaws.AnySeekLaw | src/hvac_comm.cpp:341 | One seek, with any offset and any origin, goes its 32-bit distance from the origin and answers where that is in 32 bits; before the start, or without an origin, it answers -1 and stays |
| FileLaws.SeekLaw | src/hvac_comm.cpp:341 | When offset and target fit in 32 bits a seek answers and goes to the exact target |
| FileLaws.RelativeSeeksAdd | src/hvac_comm.cpp:341 | Two relative seeks end, and answer, where one by their sum does |
| Transparency.ReadServes | src/hvac_comm.cpp:226-258 | Serving a read request, from the original or from a copy with the same bytes, transfers a prefix the specification allows and moves the server offset as specified |
| Transparency.SeekServes | src/hvac_comm.cpp:333-346 | Serving a seek request gives the specified (32-bit) answer and offset |
| Session.ToInt32 | src/hvac_comm.h:19-24 | The conversion of wire fields lands in 32 bits, keeps the value modulo 2^32, and is the identity exactly on values that fit |
| Session.AnswerFaithfulIffInRange | src/hvac_comm.cpp:226-346 | Any single served answer, together with the offset after it, agrees with the plain file system exactly when the call is in range |
| Session.FaithfulIffInRange | src/hvac_comm.cpp:226-346 | A call is served only with answers of the plain file system exactly when it is in range |
| Session.PreadSentinelShows | src/hvac_comm.cpp:226-228 | A pread at offset -1 is answered as a sequential read and moves the offset |
| Session.SeekWrapShows | src/hvac_comm.h:23 | A successful seek past 2^31 - 1 is answered with a negative position |
| Session.SomeAnswer | src/hvac_comm.cpp:197-346 | Every call, whatever its arguments, has an answer the specification allows |
| Session.UnservedAgreesIff | src/hvac_comm.cpp:211-252 | The zeros and -1 answered on a descriptor the server could not open are what the plain file system answers exactly when that many zeros are there to read, or the seek is rejected |
| SystemInvariant.StepKeeps | src/hvac_comm_client.cpp:46-312 | Every step of the system keeps the client tables, messages, handlers, servers and descriptor owners consistent with each other |
| SystemInvariant.ReachableOk | src/hvac_comm_client.cpp:46-312 | The invariant holds in every reachable state |
| SystemTheorems.OneOwner | src/hvac_comm.cpp:299-331 | In every reachable state a server descriptor is open if and only if it is held by a client table entry, an undelivered open answer or an undelivered close request, and then by one only, although numbers are reused and closes are unordered |
| SystemTheorems.CloseAbortsIff | src/hvac_comm.cpp:308-313 | In every reachable state, serving a close request fails the assertion if and only if the request carries -1 |
| SystemTheorems.CloseSends | src/hvac_comm_client.cpp:184-189 | A close request carries exactly what `fd_redir_map` holds for the descriptor, never a default |
| SystemTheorems.AbortedIff | src/hvac_comm.cpp:308-313 | Along every run, a server has failed its assertion if and only if it has served the close of a descriptor whose open had failed |
| SystemTheorems.AbortedHadFailed | src/hvac_comm.cpp:283-313 | A server whose assertion failed had failed to open a file of its own, so where opens do not fail neither does the assertion |
| Completion.AbortsIffOpensMayFail | src/hvac_comm.cpp:283-313 | Some run fails the assertion of some server if and only if opens may fail and there is a tracked file |
| SystemTheorems.TablesInLockstep | src/hvac_client.cpp:205-238 | Between application calls `fd_map` and `fd_redir_map` have the same keys, all of them open local descriptors |
| SystemTheorems.RequestsAreRouted | src/hvac_client.cpp:142-210 | Every read, seek or close request carries a descriptor that its server has open for a path that hashes to that server (or the -1 of a failed open), and a read or seek request the descriptor and path of its sender; none carries a defaulted 0 |
| SystemTheorems.KnownToOneServer | src/hvac_client.cpp:128-130 | Whatever a server has open, queued or cached hashes to it, so no path is known to two servers |
| CacheServer.HostLaw | src/hvac_client.cpp:128 | The server of a path and the hash of the path agree modulo the number of servers |
| SystemTheorems.HandshakeIsFresh | src/hvac_comm_client.cpp:136-168 | `done` is 0 or 1; an RPC is under way for a client if and only if the client waits with `done` 0 and it is the client's own RPC, so nothing is outstanding when `done` is reset and no answer is stale |
| Completion.CompletesIffNotStuck | src/hvac_comm.cpp:173-193 | From every reachable state a blocked call can still be completed (the handler in progress finishes, the mover gives up `data_mutex`, the RPC is served, transferred and delivered), if and only if no server whose process has aborted has its request, or the read it served and has yet to answer |
| Completion.AlwaysCompletes | src/hvac_comm_client.cpp:136-168 | Where opens do not fail every blocked call can be completed |
| Completion.HandlerFinishes | src/hvac_comm.cpp:266-346 | From every consistent state the handler of a server can run to its end, with a rank that falls at each step, whatever the mover is at, taking no other message |
| Calls.CallReturns | src/hvac_comm_client.cpp:231-312 | In the system, a call sends its request, the client then changes by what arrives for it and nothing else, and its return shows the outcome of waiting for exactly that: what the wrapper methods return |
| Calls.OpenReturns | src/hvac_comm_client.cpp:198-229 | The same for an open |
| CacheClient.ReadReturns | src/hvac_comm_client.cpp:91-155 | With its own transfer and answer a read returns the bytes transferred, in the front of the caller's buffer, and looks at nothing that comes later |
| CacheClient.SeekReturns | src/hvac_comm_client.cpp:46-66 | With its own answer a seek returns it |
| CacheClient.OpenReturns | src/hvac_comm_client.cpp:68-87 | With its own answer an open has recorded the answered descriptor, and nothing else has changed |
| CacheClient.OnlyReadFallsBack | src/wrappers.c:200-289 | Answered -1, a read is made again on the real descriptor; a pread and a seek return the -1 |
| SystemTheorems.FallbackNeverTaken | src/wrappers.c:200-210 | An answered tracked read returns a count between 0 and the count asked for, never -1 |
| SystemTheorems.DescriptorCount | src/hvac_comm.cpp:266-331 | A server's open descriptors number the table entries, undelivered open answers and undelivered closes that lead to them; between handlers they are exactly the keys of `fd_to_path`, save the -1 of failed opens |
| SystemTheorems.NoLeakAtQuiescence | src/hvac_comm.cpp:299-331 | When all clients have closed and all messages are delivered, the server has nothing open and `fd_to_path` is empty, failed opens included |
| SystemTheorems.ServerShare | src/hvac_comm.cpp:120-135 | Each server's part of a run of the system is a run of that server alone, so the theorems on single servers hold in the system |
| UpToNames.SessionsCommute | src/hvac_client.cpp:72-238 | In every reachable state any two steps of different clients (opens, calls, closes, deliveries, transfers, returns) are possible in either order and lead to states that are the same up to a bijection of RPC handles and server descriptors |
| Commutation.UnrelatedStepsCommute | src/hvac_comm.cpp:120-346 | In every reachable state these pairs commute exactly: steps of different clients that do not both send, any step of a client with any step of a server (a bulk callback only with steps that leave the progress thread free), steps of different servers, and on one server the reads and seeks of different clients with each other and with every mover step, and the steps of an open with every mover step that does not publish its path |
| Commutation.ClientServerCommuteIff | src/hvac_comm.cpp:120-193 | A step of a client and a step of a server commute if and only if it is not a bulk callback against the start of an open or close handler of the same server |
| Commutation.MoverOperationCommute | src/hvac_data_mover.cpp:34-64 | A read or seek commutes with any mover step, also in the middle of copying the same file |
| UpToNames.NumbersDoNotMatter | src/hvac_comm.cpp:283-292 | Whichever unused number open() returns, the states are the same up to names |
| UpToNames.OpensCommute | src/hvac_comm.cpp:266-297 | Two whole open handlers at one server can run in either order, whatever numbers open() returns in each, to states that are the same up to names |
| UpToNames.ClosesCommuteIff | src/hvac_comm.cpp:299-331 | Two close requests at one server can be served in either order, by runs of the close handler, to states that differ in nothing but the order of their paths at the end of `data_queue` and its history; not at all if and only if one path is cached or both are the same |
| UpToNames.OpenCloseCommute | src/hvac_comm.cpp:266-331 | A whole open handler and a whole close handler can run in either order, to the same state |
| UpToNames.OperationOpenCommute | src/hvac_comm.cpp:197-346 | A read or seek of one client and a whole open handler commute |
| UpToNames.OperationCloseCommute | src/hvac_comm.cpp:197-346 | A read or seek of one client and a whole close handler can happen in either order, with the same state |
| UpToNames.ClientOpenCommute | src/hvac_comm.cpp:173-297 | Any step of a client, bulk callbacks included, and a whole open handler for another request can happen in either order, with the same state |
| UpToNames.ClientCloseCommute | src/hvac_comm.cpp:173-331 | The same for a whole close handler |
| Copies.CopiesDoNotShow | src/hvac_data_mover.cpp:34-64 | States whose servers hold the same descriptors for the same paths at the same offsets, with handlers at the same stage, show the same traces, whatever is cached, queued or being copied and whichever copies the descriptors were opened on |
| Copies.MoverDoesNotShow | src/hvac_data_mover.cpp:34-64 | No step of a mover changes which traces are possible |
| Copies.CloseOrderDoesNotShow | src/hvac_comm.cpp:299-331 | The order of two closes, the one thing in which they do not commute, does not change which traces are possible |
| Renaming.RenamedStep | src/hvac_comm.cpp:173-346 | States that differ by a renaming of RPC handles and server descriptors make the same steps, renamed, and stay so related |
| Renaming.NamesDoNotShow | src/hvac_comm.cpp:173-346 | They make the same runs with the same events: names are not observable |
| Renaming.AlikeShowAlike | src/hvac_comm.cpp:173-346 | States that are the same up to names show the same traces, in both directions |
| Commutation.OperationsCommute | src/hvac_comm.cpp:197-346 | Reads and seeks on different descriptors of one server commute: same state, same answers |
| Sessions.ShareIsLawful | src/hvac_comm_client.cpp:231-312 | The events on one descriptor are explained by that descriptor's own state alone |
| Sessions.NonInterference | src/hvac_comm_client.cpp:231-312 | In any two runs, as long as the same is asked of two descriptors and the operating system decides alike (an open succeeds, a read's length), the same bytes, counts and positions are answered, whatever other clients, descriptors, deliveries and copies do |
| Sessions.AskedDecides | src/hvac_comm_client.cpp:231-312 | Where opens succeed and reads are not short, the answers on a descriptor are decided by what is asked on it |
| Sessions.ReadsAssemble | src/hvac_comm.cpp:226-258 | Without seeks, the sequential reads of a descriptor deliver consecutive pieces of the file, whatever the counts, short reads and interleaved preads |
| Sessions.ReadUntilZero | src/hvac_comm.cpp:226-258 | A reader that reads until it gets 0 has exactly the file from its starting offset |
| Sessions.RunReadsAssemble | src/wrappers.c:187-234 | In any run, what is read on a descriptor after its open is a prefix of the file, after at most one productive read per byte |
| ServerInvariant.ServerStepKeeps | src/hvac_data_mover.cpp:24-66 | Every step of the progress thread or the mover keeps the server's tables, mutex protocol, copies and queue history consistent |
| ServerInvariant.ServerRunKeeps | src/hvac_data_mover.cpp:24-66 | The same over whole runs |
| MoverTheorems.QueueConservation | src/hvac_data_mover.cpp:34-64 | At every step of every run, paths processed, then `local_list`, then the unclaimed part of `data_queue` spell the sequence of all pushes: nothing lost, duplicated or reordered |
| MoverTheorems.WakeFindsWork | src/hvac_comm.cpp:323-326 | Although the closer signals first, a pending wake-up with `data_mutex` free finds a non-empty queue |
| MoverTheorems.OnlyMissedSignalsWait | src/hvac_data_mover.cpp:35-44 | In every run from the start (or from the end of a drain), while the mover sleeps unsignalled the queue is exactly what was pushed since the last drain while the mover was outside `pthread_cond_wait` |
| MoverTheorems.AllProcessedIffNoneMissed | src/hvac_data_mover.cpp:35-36 | In every run from the start (or from the end of a drain), a server at rest has processed every pushed path if and only if no push since the last drain came while the mover was outside `pthread_cond_wait` |
| MoverTheorems.PublicationSound | src/hvac_data_mover.cpp:47-63 | At every step, also in mid-copy, each `path_cache_map` target is a complete, byte-equal, node-local copy of its key, and not the file being written; it is the key's last component in a directory of six characters under the node-local root |
| MoverTheorems.OneHopRedirection | src/hvac_comm.cpp:273-292 | A redirection target is never itself a key, queued or recorded in `fd_to_path`; every open descriptor reads the bytes of the path recorded for it |
| MoverTheorems.RedirectedIffCached | src/hvac_comm.cpp:273-292 | An open is redirected exactly when its path is published as the handler looks: then the descriptor is on a complete node-local copy, otherwise on the original, at offset 0 and recorded under the requested path, whatever the mover does before open() |
| MoverTheorems.OldCopiesKept | src/hvac_data_mover.cpp:55-57 | A copy that could be opened in place of a path stays a complete copy for ever, also after the path is published again |
| MoverTheorems.SinglePublicationWindow | src/hvac_comm.cpp:319-327 | A published path stays published and is pushed at most once more, by the one handler already past its cache check |
| MoverTheorems.BoundedDrain | src/hvac_data_mover.cpp:38-63 | After a drain the mover takes at most a number of steps computed from the list and the bytes left before its next round, however many closes push meanwhile; whenever `local_list` is empty, also after early copy failures, every path that was in it has been processed in order, published or recorded as failed |
| MoverTheorems.DrainEnds | src/hvac_data_mover.cpp:38-63 | A run with more mover steps than that contains the start of the next round, and by then the whole list was processed |
| MoverTheorems.EachMoveCounts | src/hvac_data_mover.cpp:47-63 | The bound on a drain is exact: as long as nothing fails every mover step brings it down by one |
| MoverTheorems.MoverNeverStuck | src/hvac_data_mover.cpp:47-63 | In that time the mover always has a next step that is not a failure |
| Paths.CopyNameInjective | src/hvac_data_mover.cpp:32-53 | The directory and the file name can be read off a copy's name, so copies in different directories never collide |
| Paths.FilenameLaw | src/hvac_data_mover.cpp:53 | The file name of d/f is f and its directory d; a name without a slash is its own file name |
| Paths.CopyNameLaw | src/hvac_data_mover.cpp:53 | The copy of d/f into dir is called dir/f |
| Limits.LostWakeup | src/hvac_data_mover.cpp:35-36 | A reachable state where all is closed and delivered, both threads rest, and a path is stuck in the queue with nothing but a spurious wake-up to come |
| Limits.SignalBeforePush | src/hvac_comm.cpp:323-326 | There is a reachable moment when the mover is signalled and its queue is still empty: the closer signals before it pushes |
| ServerProcess.OpenIsSteps | src/hvac_comm.cpp:266-297 | The whole open handler is a sequence of atomic steps |
| ServerProcess.CloseIsSteps | src/hvac_comm.cpp:299-331 | The whole close handler, cached or not, is a sequence of atomic steps in the source's order, with the mover's way out of its critical section where the closer waits for `data_mutex` |
| ServerProcess.ReleaseIsSteps | src/hvac_data_mover.cpp:35-44 | From any point of its critical section the mover reaches its end by atomic steps, and `data_mutex` is free |
| ServerProcess.StepsAreRuns | src/hvac_comm.cpp:120-135 | Sequences of steps whose messages are sound are runs of the server |
| ServerProcess.ClosedServerOk | src/hvac_comm.cpp:299-331 | Serving the close of an open descriptor keeps the server's invariant |
| ServerProcess.CloseLaw | src/hvac_comm.cpp:299-331 | What a close leaves behind, field by field: one path at the end of what the mover has still to take, and no sleeping mover, exactly if the path is not cached |
| ServerProcess.DrainIsSteps | src/hvac_data_mover.cpp:39-42 | The drain loop is a sequence of single pushes and pops that moves the whole queue, in order |
| ServerProcess.CopyOneIsSteps | src/hvac_data_mover.cpp:47-63 | One turn of the copy loop, for every way it can end, is a sequence of atomic steps |
| ServerProcess.CopyAllIsSteps | src/hvac_data_mover.cpp:47-63 | The copy loop over the whole list is a sequence of atomic steps |
| ServerProcess.HvacServer.OpenHandler | src/hvac_comm.cpp:266-297 | Opens the cached copy of the path, or else the path, at offset 0, records the requested path, answers the descriptor, and keeps the server's invariant |
| ServerProcess.HvacServer.ReadHandler | src/hvac_comm.cpp:197-261 | The buffer to push holds exactly the bytes at the sequential or given offset, or all zeros at full size when the read fails; the new state is that of the read step |
| ServerProcess.HvacServer.Transfer | src/hvac_comm.cpp:226-243 | The front of the buffer is the slice of the file at the offset, the rest is untouched |
| ServerProcess.HvacServer.SeekHandler | src/hvac_comm.cpp:333-346 | The answer and the new state are those of the seek step, with the answer cut to 32 bits |
| ServerProcess.HvacServer.LockMutex | src/hvac_comm.cpp:323 | Locking waits while the mover is in its critical section, which then runs to its end |
| ServerProcess.HvacServer.QueueForMover | src/hvac_comm.cpp:323-326 | The critical section, entered when the mover has left its own, wakes a sleeping mover and appends the path |
| ServerProcess.HvacServer.CloseHandler | src/hvac_comm.cpp:299-331 | The assertion holds if and only if the descriptor is not -1; then the descriptor and its path are forgotten, and exactly if the path is not cached it is pushed once, behind all that waits, and the mover is not left asleep; the server's invariant is kept |
| ServerProcess.HvacServer.Drain | src/hvac_data_mover.cpp:38-42 | All of `data_queue` moves behind `local_list`, in order |
| ServerProcess.HvacServer.CopyFile | src/hvac_data_mover.cpp:56 | The target becomes the first `limit` bytes of the source file and nothing else changes |
| ServerProcess.HvacServer.CopyFront | src/hvac_data_mover.cpp:49-62 | The front of the list is copied and published, or recorded as failed, and popped; the server's invariant is kept |
| ServerProcess.HvacServer.CopyList | src/hvac_data_mover.cpp:46-63 | The whole list is worked off front to back, whatever copies fail |
| ClientProcess.HvacClient.FileTracked | src/hvac_client.cpp:212-218 | True exactly for the keys of `fd_map` |
| ClientProcess.HvacClient.TrackFile | src/hvac_client.cpp:104-131 | The path is recorded, `done` is reset, and the open request goes to the path's server |
| ClientProcess.HvacClient.GenReadRpc | src/hvac_comm_client.cpp:231-281 | `done` and `read_ret` are reset, the caller's buffer is registered, and the request carries the redirected descriptor |
| ClientProcess.HvacClient.RemoteRead | src/hvac_client.cpp:142-160 | A read becomes a request with offset -1 to the path's server |
| ClientProcess.HvacClient.RemotePread | src/hvac_client.cpp:166-184 | A pread becomes a request with its own offset to the path's server |
| ClientProcess.HvacClient.RemoteLseek | src/hvac_client.cpp:186-203 | A seek becomes a request with a 32-bit offset to the path's server |
| ClientProcess.HvacClient.Receive | src/hvac_comm.cpp:253-256 | The bulk push replaces the front of the registered buffer and leaves the rest |
| ClientProcess.HvacClient.Block | src/hvac_comm_client.cpp:136-168 | The wait loop ends with `done` equal to `HG_TRUE` in the state that the arriving callbacks lead to, and returns its `read_ret` |
| ClientProcess.HvacClient.Open | src/wrappers.c:102-112 | The open wrapper leaves the tables as the request, the wait and the arrivals determine |
| ClientProcess.HvacClient.Read | src/wrappers.c:187-213 | The read wrapper returns the count and leaves in the caller's buffer the bytes that the arrivals determine, with the fallback on -1 |
| ClientProcess.HvacClient.Pread | src/wrappers.c:215-234 | The same for pread, without a fallback |
| ClientProcess.HvacClient.Lseek | src/wrappers.c:268-289 | The lseek wrappers return the answered position |
| ClientProcess.HvacClient.Close | src/hvac_client.cpp:234-238 | The close request carries the redirected descriptor to the path's server and both tables forget the descriptor |
| PortsFile.RoundTrip | src/hvac_comm_client.cpp:335-346 | For white-space-free addresses, scanning the printed file gives the entries back if and only if all ranks fit in an int |
| PortsFile.ParseText | src/hvac_comm.cpp:166 | Scanning the printed file gives every entry with its rank as an int stores it, negative and many-digit ranks included |
| PortsFile.GarbageEndsScan | src/hvac_comm_client.cpp:339 | Text that does not start with a number ends the scan after the entries before it |
| PortsFile.AnySpacing | src/hvac_comm_client.cpp:339 | Any white space separates rank, address and lines |
| PortsFile.SpacesAndSigns | src/hvac_comm_client.cpp:339 | White space is that of the C locale, and a plus sign changes nothing |
| PortsFile.OneLineEach | src/hvac_comm.cpp:166 | The file has exactly one line for each entry |
| PortsFile.DigitsLaw | src/hvac_comm.cpp:166 | A number is printed as the digits of its tenth followed by its last digit |
| PortsFile.FirstMatchIsFirst | src/hvac_comm_client.cpp:339-346 | A match is found exactly for ranks in the file, and is the earliest |
| PortsFile.MemoryDoesNotShow | src/hvac_comm_client.cpp:318-355 | While servers append to the file, a client that remembers addresses answers every lookup, in any order, as one that scans the file afresh |
| PortsFile.AddressBook.Scan | src/hvac_comm_client.cpp:339-346 | The scan loop finds the first entry with the rank, or none |
| PortsFile.AddressBook.Lookup | src/hvac_comm_client.cpp:318-355 | A remembered rank gives the remembered address; another gives the first match in the file and remembers it; one that is not found gives what the uninitialised result held and remembers nothing. Whenever the rank was written the result is the first written entry's address |

## Left out

- Session.InRange: server reads fail only on a bad descriptor or a negative offset; an I/O error on a server would be answered with zeros.
- Session.ToInt32: conversions out of range wrap in two's complement; for the scanned ranks of the ports file C leaves this case undefined.
- PortsFile.RoundTrip: lines are taken to fit the `PATH_MAX` buffers, and a line is appended as a whole.
- UpToNames.OpensCommute: whole handlers at one server are compared run one after the other, as the single progress thread runs them; which path the last failed open was for, recorded under -1 and never read again, is not compared.
- ServerProcess.HvacServer.CloseHandler: a method is one thread's execution; the mover moves in it only to leave its critical section. All interleavings are in the transition system.
- Mercury itself (handles, bulk registration, addresses, progress): a message pool and an atomic push into the client's buffer.
- Applications with several threads: the handshake has one `done` for the whole process.
- "Every closed file is eventually cached", because it is false; the exact condition is proved instead.
- Counts of 0 or of 2^31 and more, seeks with `SEEK_DATA` or `SEEK_HOLE`, and offsets that overflow 64 bits.
- `fopen`, `read64`, `readv`, `write` and `dup`: not redirected consistently by the wrappers.
- Tracked files opened for reading and writing: files are taken not to change.
- The tracking test on path and flags: which files are tracked is fixed by the configuration.
- Logging, timing buffers, environment variables, start-up and shutdown, symbol lookup.
- Memory-model races on `path_cache_map`: accesses are atomic and only interleave.
- `src/hvac_comm_old.cpp`: not built.
