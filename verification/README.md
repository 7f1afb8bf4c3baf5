# A verified model of alibp2p's reused streams and worker pool

This project models two concurrent parts of the alibp2p service and proves what they keep in every
interleaving. Each part is written twice: as a state machine whose steps are the atomic actions of
the source (a map load, a channel send, a counter increment, one frame written), over which the
theorems about all runs are proved, and as classes whose methods have the source's control flow and
change their fields in place. In `KeyMutex`, `Service` and `AsyncRunner` any number of other
goroutines act between any two of a method's own actions, and a ghost field `trace` ties object and
machine: the fields are always the machine's state after `trace`, so every theorem about runs holds
of the object. `AStreamCache` works under the cache lock and `ReuseConn` belongs to one goroutine;
apart from the Clean inside `Del2` their methods run undisturbed, and they are proved against
functions of the old fields, which the protocol machine uses as steps.

What the outside world decides is a parameter of these methods: which case a select takes when its
timer may fire, whether a dial, a write or a read fails, what the uuid is (`Env` in
`ProtocolService.dfy`). A method must then take the branch that the parameter and its own fields
call for, and its contract says with what it returns and why: a lock or an unlock times out only if
the timer's case is taken or the channel is not ready, a read fails only if the world makes it or no
frame has come, an error carries the text of the frame that was read.

**The reuse-stream request protocol.** Calls on a registered protocol share one cached stream per
(peer, protocol). A client takes the key's lock, gets or opens a stream, writes one frame and takes
the next frame that arrives; it never compares ids. That the reply is its own rests on four layers:

| file | what it models |
|---|---|
| `KeyMutex.dfy`, `KeyMutexProofs.dfy`, `KeyMutexClass.dfy` | the key lock: capacity-one channels in a map, with `Clean` starting a new generation |
| `StreamKey.dfy`, `StreamCache.dfy`, `StreamCacheClass.dfy` | the two-level stream cache, its keys and its wildcard deletions |
| `RawData.dfy`, `ServerLoop.dfy` | the frame, and the far end's loop over two in-memory buffers |
| `Protocol.dfy`, `ProtocolInv.dfy` | the whole protocol as one machine, and its invariants by layer |
| `ProtocolStructure.dfy`, `ProtocolReferences.dfy`, `ProtocolRequests.dfy`, `ProtocolExclusion.dfy`, `ProtocolExchanges.dfy`, `ProtocolSequential.dfy` | the invariants, one layer a file, step by step |
| `ProtocolTheorems.dfy`, `ProtocolTheft.dfy` | the theorems about all runs, and the runs that show their limit |
| `ProtocolCache.dfy`, `ProtocolFarEnd.dfy` | what the protocol does to the cache, and that every far end runs the server loop |
| `ProtocolProgress.dfy` | freedom from deadlock and the bound on a call's steps |
| `ProtocolService.dfy` | `sendMsg`, `RequestWithTimeout` and `SendMsgAfterClose` as methods |

**The worker pool `AsyncRunner`.** `AsyncRunner.dfy` is the machine, `AsyncRunnerProofs.dfy` its
invariants, `AsyncRunnerTheorems.dfy` the results over all runs, `AsyncRunnerRest.dfy` where the pool
comes to rest, and `AsyncRunnerClass.dfy` the object.

`PacketHead.dfy` is the six-byte packet head, `Counting.dfy` the sums the counting arguments use.

## What holds, and exactly when

*Pairing.* `RepliesArePaired`: as long as no `Unlock` on the key has taken the token of a channel
other than the one its call locked (a stale `Unlock`), every success has the reply to its own
request. Callers can see to the condition in two ways, both proved sufficient: the key has not been
cleaned yet (`PairedUntilFirstClean`), or its calls do not overlap (`PairedWithoutOverlap`). The
number of Cleans is exact: pairing holds in every run with at most n Cleans of the key if and only
if n is zero (`PairingBearsNoClean`). In `StaleUnlockBreaksPairing`, with a single Clean, a call
fails and cleans the key, its deferred `Unlock` takes the token of the next generation, and a third
call receives the reply to the second call's request. `EmptyChannelMispairs` shows that this is not
one odd run: from every reachable state in which a call waits on a pooled stream with its channel
empty, the next call can be given that call's reply. For the same reason streams at rest and one
call at a time are claimed only for keys without a stale `Unlock` (`StaleUnlockLetsTwoIn`). The
comment on `Clean` (`funcs.go:184-186`) promises that it unblocks waiting locks and starts a new
lock; it does not say that a pending `Unlock` then acts on the new one.

Stale Unlocks and overlapping calls are recorded in the state as a run goes on; `StolenExact` and
`OverlappedExact` prove the records exact: a key is in one if and only if the event happened.

*Progress.* No call is ever stuck on the locks, and each returns after at most thirteen steps of its
own, in every schedule (`EveryScheduleReturns`).

*The lock.* Plain mutual exclusion is false once `Clean` runs. What holds is the counting bound
(`LockCountingBound`), and it is attained for every number of cleans (`CountingBoundTight`). In the
protocol each channel is closed exactly once and is the one that was deleted, because `del2` runs
`Clean` under the cache lock (`GenerationsSoundInProtocol`); Cleans that overlap would break this
(`OverlappingCleansMisclose`). A full channel belongs to a caller still on its way out unless its
holder's `Unlock` lost to its timer although the token was there, and on keys without a stale
`Unlock` exactly then (`NoStuckKey`, `TimedOutUnlockSticks`). On a key never cleaned that is also
exactly when tokens outnumber holders (`MutualExclusionWithoutClean`).

*The pool.* While the context is alive `closeCh` is closed twice, which panics, exactly when the
pool was started again after draining and drains again (`CloseAccounting`,
`RestartAfterDrainCrashes`). A wait group that reached zero stays there exactly as long as no worker
is started (`WaitIsFinal`); under a live context that takes a restart, after a cancellation a first
submission is enough (`CancelledWaitRises`). The counter keeps its bounds for every maximum but the
largest 32-bit integer (`CounterBoundExact`). Once submissions have stopped, an idle pool whose timers
fire shrinks to its minimum and a closing one to nothing (`IdlePoolShrinks`), and a cancelled one
stops (`CancelledPoolStops`). `WaitClose` on a pool that never had a worker does not return while the
context lives: nobody is there to close `closeCh` (`ClosingPoolLetsWaitReturn`).

*The cache.* Over every run of the protocol an accepted stream is pooled or closed exactly once
(`PoolConserved`), and a failed exchange drops the pooled streams of its own pair and of no other
(`FailureDropsExactlyPair`). `del` undoes a fresh `put` unless the protocol id is empty and the peer
has another stream, since `del2` then takes its whole-peer branch (`DelUndoesFreshPut`). The
disconnect hook clears a peer's streams on every protocol whose id has no @; with one, the second part
of the key need not be the peer (`DisconnectMakesGetMiss`, `AtInProtocolSurvives`).

*The handler's error.* A client sees a handler failure if and only if its error text is not empty
(`HandlerFailureSeen`); the protocol machine has no empty ones, and there a success never comes from
a handler that failed (`RepliesArePaired`).

## Model

| member | source | states |
|---|---|---|
| `ProtocolTheorems.RepliesArePaired` | impl.go:702-754 | in every run, a success whose key suffered no stale Unlock took the frame that answers this call's only request: same id byte for byte, the bytes its handler wrote |
| `ProtocolTheorems.PairedUntilFirstClean` | impl.go:702-754 | the same for every interleaving up to the first Clean of the key |
| `ProtocolTheorems.PairedWithoutOverlap` | impl.go:327-369 | the same for every history of non-overlapping calls, with write errors, timeouts, late and error replies, disconnects |
| `ProtocolTheorems.OverlappedExact` | impl.go:327-369 | a key counts as overlapped if and only if at some point of the run a call on it started while another had not returned |
| `ProtocolTheorems.StolenExact` | funcs.go:157-182 | a key counts as hit by a stale Unlock if and only if at some point of the run a call's Unlock took the token of another channel than the one it locked |
| `ProtocolTheorems.FailedStreamsNotReused` | pool.go:156-173 | on a key without a stale Unlock get never hands out a stream on which an exchange failed, nor one with an unanswered request or unread reply |
| `ProtocolTheorems.FreeLockMeansQuietPool` | impl.go:703-711 | on a key without a stale Unlock, while its lock is free and no call on it is in del2, its pooled streams have no unanswered request and no unread reply |
| `ProtocolTheorems.OneCallTouchesStreams` | impl.go:703-711 | on a key without a stale Unlock at most one call is between takelock and the deletion of its channel |
| `ProtocolTheorems.DisconnectDropsOnlyPeer` | impl.go:207-210 | the disconnect hook drops exactly the pooled streams whose key's second part is that peer, which for names without an @ are the peer's own, and leaves every key lock as it was |
| `ProtocolTheorems.GenerationsSoundInProtocol` | pool.go:123-126 | in every run, with del2 holding the cache lock: channels in the map are open, every other channel ever made is closed exactly once as soon as the Clean that deleted it is over, and the channel closed is the one deleted |
| `ProtocolTheorems.CleansNeverOverlap` | pool.go:123-126 | del2 under the cache lock never lets two Cleans run at once |
| `ProtocolCache.ReusesWhatIsPooled` | pool.go:156-173 | in every reachable state a call with the lock can take each pooled stream of its pair and no other stream, and opens one only if none is pooled |
| `ProtocolCache.FailureDropsExactlyPair` | impl.go:735-744 | in every reachable state del2 after a failed exchange leaves exactly the pooled streams that are not under the pair's key, and starts one close for each stream it drops and for no other |
| `ProtocolCache.CacheStep` | pool.go:123-196 | over every step of the protocol: only a put stores, and only into a free place; only a del2 or a disconnect drops; a close is started exactly for what is dropped |
| `ProtocolCache.PoolConserved` | pool.go:61-80 | over every run of the protocol a stream the cache accepted is pooled and unclosed, or out of the pool and closed exactly once; no other stream is pooled or closed by the cache |
| `ProtocolFarEnd.FarEndRunsLoop` | pool.go:210-294 | in every run the far end of each stream has run one session of the server loop on the requests in the order they were written, and its replies are that session's |
| `ProtocolFarEnd.FarEndAnswersNext` | pool.go:233-292 | in every run a far end that is up can go on, and its k-th frame is for its stream's k-th request: that request's id with the bytes its handler wrote, or with the handler's error; it stays up unless the handler or the write fails |
| `ProtocolTheorems.InvStep` | impl.go:464-567 | every atomic step of the protocol keeps the invariants of all four layers |
| `ProtocolTheorems.InvRun` | impl.go:464-567 | the invariants hold in every reachable state |
| `ProtocolTheft.StaleUnlockBreaksPairing` | funcs.go:157-182 | on every key some run with a single Clean hands a call another call's reply, after a stale Unlock took a token of the next generation |
| `ProtocolTheft.EmptyChannelMispairs` | pool.go:156-173 | from every reachable state where a call waits on a pooled stream with its channel empty, a further call can take its reply |
| `ProtocolTheft.TheftIsReachable` | impl.go:735-744 | two calls, one after a failed one, reach the state in which the stale Unlock is pending |
| `ProtocolTheft.StaleUnlockLetsTwoIn` | funcs.go:157-182 | after one Clean and a stale Unlock a pooled stream can be in use while the lock is free, and then two calls wait on one stream |
| `ProtocolTheft.PairingBearsNoClean` | funcs.go:187-201 | pairing holds on a key in every run with at most n Cleans of it if and only if n is zero |
| `ProtocolProgress.EveryScheduleReturns` | impl.go:702-754 | calls take at most thirteen steps each in every run, and where no call can step all have returned: the key locks and the cache lock never deadlock |
| `ProtocolProgress.CallCanGoOn` | impl.go:464-567 | with the cache lock free every call that has not returned has a step to take |
| `ProtocolProgress.Del2CanGoOn` | pool.go:123-154 | the call that holds the cache lock always has a step to take |
| `ProtocolStructure.StructureStep` | pool.go:123-126 | calls, lock callers and the cache lock move together; Clean runs only inside del2, one at a time |
| `ProtocolStructure.OnlyMoverMoves` | impl.go:464-567 | a step by one call changes no other call's place |
| `ProtocolExclusion.ExclusionStep` | impl.go:703-711 | on keys without a stale Unlock a call that may touch a stream holds the channel that is in the map |
| `ProtocolExchanges.ExchangesStep` | impl.go:473-489 | on keys without a stale Unlock a stream in use has at most its user's one request outstanding, and every step keeps it so |
| `ProtocolExchanges.HandedOutQuiet` | pool.go:156-173 | on a key without a stale Unlock what get returns under the held lock is a stream at rest |
| `ProtocolRequests.RequestsStep` | impl.go:547-558 | every request carries its own call's message, a call writes at most one, and a call that waits or succeeded has its own on the very stream it reads from |
| `ProtocolReferences.ReferencesStep` | pool.go:175-196 | streams in use and in the pool exist and belong to the caller's pair; a fresh stream has one user |
| `ProtocolSequential.SequentialStep` | funcs.go:157-182 | on keys without overlapping calls every Unlock works on the channel its own Lock used |
| `ProtocolService.Service.RequestWithTimeout` | impl.go:702-754 | with other goroutines running throughout, a call that got its reply returns that frame's data, which answers this call's own request if the key was not cleaned, or its calls never overlapped, or no stale Unlock hit it; an error says what failed and why, with the frame's own text for an error reply; a call still blocked is at get, put or del2 with the cache lock taken; an unregistered protocol leaves lock and cache alone |
| `ProtocolService.Service.SendMsgAfterClose` | impl.go:327-369 | the same, except that the reply is consumed and not returned |
| `ProtocolService.Service.SendMsg` | impl.go:464-567 | on success the call's one request, carrying its message and the uuid's id, is on the stream it will read from, which is pooled unless the dial succeeded; a failure is one of dial or write, which the world made, and leaves the call to drop a pooled stream or to leave |
| `ProtocolService.Service.WriteFrame` | impl.go:474-489 | exactly if the write succeeds the one frame is on the stream, and a stream opened for it has been put; on failure the stream is marked as failed and one opened for it is not cached |
| `ProtocolService.Service.ReadReply` | impl.go:351-361 | the call leaves with the frame just taken, which is no error reply; or it turns to del2 with the stream marked as failed, reporting the text of the error reply it read, or a read failure if the deadline made it or no frame had come |
| `ProtocolService.Service.Del2` | pool.go:123-154 | its last action drops exactly the pair's streams and starts one close for each, and every other stream stays; the channel found for the key is closed and not in the map; it waits for nothing but the cache lock |
| `ProtocolService.Service.CleanLock` | pool.go:313-315 | the channel stored for the key on entry, if any, ends closed, with others acting in between |
| `ProtocolService.Service.TakeLock` | pool.go:309-311 | an unregistered protocol is refused and nothing changes; otherwise the lock is taken, or the call fails because the timer's case is taken or the channel is full or closed |
| `ProtocolService.Service.Unlock` | pool.go:317-319 | the deferred unlock always ends and keeps the call's result; its last action received from the channel found, which is then not full, or found none, or timed out because the timer's case was taken or nothing was there |
| `ProtocolProgress.CanTimeOut` | funcs.go:148-150 | a call waiting for the lock can always be ended by the timer |
| `ProtocolProgress.CanUnlock` | funcs.go:157-182 | a call that leaves can always run its Unlock to the end |
| `KeyMutexProofs.LockCountingBound` | funcs.go:133-201 | holders <= tokens in all channels ever made for the key <= 1 + deletions by Clean, the difference of the first two being the Unlocks that took nothing; each channel ever made is in the map or was deleted by Clean |
| `KeyMutexProofs.MutualExclusionWithoutClean` | funcs.go:133-182 | a key never cleaned has at most one holder, and holders equal tokens if and only if no Unlock on it lost to its timer and left its token behind |
| `KeyMutexProofs.NoStuckKey` | funcs.go:157-182 | a full channel in the map belongs to a caller that locked it and has not finished Unlock, unless its holder's Unlock lost to its timer; on keys without a stale Unlock, cleaned or not, exactly then |
| `KeyMutexProofs.TimedOutUnlockSticks` | funcs.go:170-177 | an Unlock that loses to its timer with the token ready leaves the key locked with no holder |
| `KeyMutexProofs.GenerationsSound` | funcs.go:187-201 | for any users of the lock: the map never holds a closed channel, and as long as Cleans have not overlapped each deleted channel is closed exactly once |
| `KeyMutexProofs.NoLockOnClosed` | funcs.go:136-152 | a Lock found waiting on a closed channel never succeeds, however the run goes on |
| `KeyMutexProofs.CountingBoundTight` | funcs.go:187-201 | after n Cleans there can be n + 1 holders, for every n |
| `KeyMutexProofs.OverlappingCleansMisclose` | funcs.go:187-201 | two overlapping Cleans can delete a channel without closing it and close another twice |
| `KeyMutexProofs.InvRun` | funcs.go:133-201 | the lock's invariants hold in every interleaving |
| `KeyMutexProofs.StolenExact` | funcs.go:157-182 | a key counts as hit by a stale Unlock if and only if at some point of the run an Unlock on it received from a channel other than the one its caller had filled |
| `KeyMutexClass.KeyMutex.constructor` | funcs.go:120-127 | an empty lock map |
| `KeyMutexClass.KeyMutex.Regist` | funcs.go:129-131 | registers a namespace |
| `KeyMutexClass.KeyMutex.LoadOrStore` | funcs.go:136 | finds the key's channel or stores a new one |
| `KeyMutexClass.KeyMutex.Send` | funcs.go:145-147 | fills the channel; the caller holds the key |
| `KeyMutexClass.KeyMutex.GiveUp` | funcs.go:139-151 | a recovered send on a closed channel, or the timer: the lock is refused and no channel changes |
| `KeyMutexClass.KeyMutex.LoadForUnlock` | funcs.go:160-162 | the channel now stored for the key, which may be of a later generation |
| `KeyMutexClass.KeyMutex.Receive` | funcs.go:170-173 | empties the channel found, whoever filled it; a closed empty one gives nothing |
| `KeyMutexClass.KeyMutex.UnlockExpires` | funcs.go:174-177 | the timer: no channel changes |
| `KeyMutexClass.KeyMutex.Lock` | funcs.go:133-155 | namespace error exactly for unknown namespaces; a success holds the key, alone if the key was never cleaned; an error only on a channel found closed, or when the timer's case is taken, or on a full channel |
| `KeyMutexClass.KeyMutex.Unlock` | funcs.go:157-182 | namespace error exactly for unknown namespaces; otherwise it ends: nil after its last action received from the channel found, which is then not full, or found no channel stored; a timeout only if the timer's case is taken or there is nothing to receive |
| `KeyMutexClass.KeyMutex.Clean` | funcs.go:187-201 | without effect for empty arguments; otherwise the stored channel ends closed and out of the map |
| `KeyMutexClass.KeyMutex.DeleteAndClose` | funcs.go:192-198 | the channel loaded before ends closed and not in the map |
| `StreamCache.FlatDetermines` | pool.go:50-53 | the flat map keyed by (peer, protocol, session) determines the two-level pool |
| `StreamCache.PutRefinesFlat` | pool.go:175-196 | put is insert-if-absent on the flat map and closes nothing |
| `StreamCache.Del2RefinesFlat` | pool.go:123-154 | del2 removes exactly the flat entries its wildcard pattern matches |
| `StreamCache.RunOps` | pool.go:118-196 | after every history of puts and deletions no inner map is empty and every stream is under its own computed keys |
| `StreamCache.Del2ClosesWhatItRemoves` | pool.go:123-154 | one close for each entry removed, none for any other stream; an unknown session changes and closes nothing |
| `StreamCache.GetMissesIffNoEntry` | pool.go:156-173 | get misses if and only if no entry matches |
| `StreamCache.DisconnectMakesGetMiss` | impl.go:207-210 | after del2(id, "", "") get misses for that peer on a protocol if and only if the key's second part is the peer, as it is for names without an @, or there was nothing to find |
| `StreamCache.AtInProtocolSurvives` | pool.go:130-135 | with protocol "a@b" and peer "c" the stream stays in the cache when "c" disconnects |
| `StreamCache.DelUndoesFreshPut` | pool.go:118-121 | del undoes a fresh put if and only if the protocol id is not empty or the peer had no other stream |
| `StreamCache.StreamsConserved` | pool.go:61-80 | over any history an accepted stream is in the pool and unclosed, or out of it and closed exactly once; a declined one is never closed |
| `StreamCacheClass.AStreamCache.constructor` | pool.go:105-116 | an empty cache with key locks of its own |
| `StreamCacheClass.AStreamCache.FullClose` | pool.go:69-75 | starts one close, none for the nil stream |
| `StreamCacheClass.AStreamCache.CleanSession` | pool.go:76-80 | starts one close for each stream of an inner map |
| `StreamCacheClass.AStreamCache.Put` | pool.go:175-196 | updates the nested map as the flat insert-if-absent |
| `StreamCacheClass.AStreamCache.Get` | pool.go:156-173 | some stored stream of the pair, in arbitrary order, or a miss exactly when there is none |
| `StreamCacheClass.AStreamCache.Del2` | pool.go:123-154 | cleans the key's lock, which ends closed and out of the map, and none for an empty protocol id; then the in-place deletion meets its specification on all three branches |
| `StreamCacheClass.AStreamCache.DelWholePeer` | pool.go:128-136 | the walk over the map removes and closes exactly the peer's entries, in any order |
| `StreamCacheClass.AStreamCache.DelAllSessions` | pool.go:137-142 | drops and closes all sessions of one key |
| `StreamCacheClass.AStreamCache.DelOneSession` | pool.go:143-153 | drops and closes one session, and the inner map when it becomes empty |
| `StreamCacheClass.AStreamCache.Del` | pool.go:118-121 | cleans the lock of, and deletes, what the stream's own key names |
| `StreamCacheClass.AStreamCache.Regist` | pool.go:296-307 | registers handler and lock namespace once; an unknown handler type and a second registration are refused and change nothing |
| `StreamKey.AccessorsInvertKey` | pool.go:100-103 | Id and Protoid recover the two halves of a key if and only if neither contains an @ |
| `StreamKey.KeyInjective` | pool.go:100 | with @-free peer ids different pairs have different keys |
| `StreamKey.KeyIsSoleIff` | pool.go:100 | a key is no other peer's key if and only if its own peer id has no @ |
| `StreamKey.LockSharedIff` | funcs.go:203-214 | two pairs of namespace and key name one lock if and only if moving the seam between them makes them equal; within a namespace different keys have different locks |
| `StreamKey.SessionSharedIff` | pool.go:81-90 | two connections have one session key if and only if their address texts differ at most in where the remote one ends |
| `ServerLoop.RepliesInOrder` | pool.go:233-292 | replies in request order, one per successful call, each with the request's integer id and exactly that call's bytes; after the first failure at most one more frame, which is the reply whose write was reported as failed, or an error reply with that request's id, no data and the text of the read's or the handler's error; and then the end |
| `ServerLoop.InputConserved` | pool.go:249-264 | bytes read by handlers followed by bytes left are the accepted payloads back to back |
| `ServerLoop.DrainedHandlersSeeOwnRequest` | pool.go:218-222 | if every handler drains its input each sees exactly its own request |
| `ServerLoop.TurnCases` | pool.go:249-292 | what one iteration does when it succeeds and when it fails, and that its handler reads as many bytes as it asks for and there are |
| `ServerLoop.DoHandleStream` | pool.go:210-294 | the loop over two buffers computes the session specified, and stops where that stops |
| `ServerLoop.ReuseConn.Read` | pool.go:92-94 | takes bytes from the front of the request buffer, and only those |
| `ServerLoop.ReuseConn.Write` | pool.go:96-98 | appends to the reply buffer |
| `RawData.IdNormalises` | types.go:85-91 | reading an id and writing it back strips exactly its leading zeros, keeps its value, and changes nothing else |
| `RawData.IdSurvivesHop` | types.go:129 | the id of a request comes back byte for byte in its reply |
| `RawData.NewRawDataCarries` | types.go:85-91 | a new frame has no error text and the data given; its id is the integer given, or without one that of the uuid, written without leading zeros |
| `PacketHead.NewSimplePacketHead` | types.go:102-108 | the built head decodes to the message type and the data length modulo 2^32 |
| `PacketHead.DecodeDetermines` | types.go:110-123 | decoding fails exactly on lengths other than six, and a decoded head can be rebuilt byte for byte |
| `PacketHead.ReadSimplePacketHead` | types.go:93-100 | the six bytes read, or the nil head, which Decode rejects |
| `AsyncRunnerTheorems.CounterIsWorkers` | funcs.go:70-101 | for every max below 2^31 - 1 the counter equals the workers not yet retired and stays between 0 and max, also with decrements outside the lock |
| `AsyncRunnerTheorems.CounterBoundExact` | funcs.go:110-112 | the counter stays in its bounds in every interleaving if and only if max is not 2^31 - 1, where the test in Apply wraps around |
| `AsyncRunnerTheorems.TasksExactlyOnce` | funcs.go:104-117 | every submitted task is blocked in Apply, running or done, exactly once |
| `AsyncRunnerTheorems.CloseAccounting` | funcs.go:82-97 | closes equal starts from zero less one if workers are live, while the context lives; a drained pool has crashed if and only if it was started twice; with min >= 1 a close needs WaitClose |
| `AsyncRunnerTheorems.RestartAfterDrainCrashes` | funcs.go:82-97 | for every min and max >= 1 a restart after draining closes closeCh twice in some run, with the context alive |
| `AsyncRunnerTheorems.WaitMeansDrained` | funcs.go:61-68 | the wait group counts the monitor and unfinished workers; at zero the context is done or closeCh closed, and every worker has exited |
| `AsyncRunnerTheorems.WaitIsFinal` | funcs.go:66-68 | over any run, a wait group at zero stays there if and only if no worker is started any more; under a live context starting one is a restart |
| `AsyncRunnerTheorems.CancelledWaitRises` | funcs.go:66-73 | with the context cancelled first the wait group can rise from zero with the first worker |
| `AsyncRunnerTheorems.CollectionKeepsMinimum` | funcs.go:82-97 | idle collection never takes an open pool below min |
| `AsyncRunnerRest.CollectionKeepsIff` | funcs.go:82-97 | a collection keeps its worker if and only if no more than min are counted and the pool is not closing |
| `AsyncRunnerRest.CollectionShrinks` | funcs.go:82-97 | otherwise the worker leaves, the counter is one lower, and the last one goes on to close closeCh |
| `AsyncRunnerRest.IdlePoolShrinks` | funcs.go:82-97 | in every schedule after all submissions are served, a pool at rest whose remaining workers' timers have fired counts no more than min, or nobody if it is closing |
| `AsyncRunnerRest.ClosingPoolLetsWaitReturn` | funcs.go:61-64 | a closing pool comes to rest with the wait group at zero, so that WaitClose returns, if and only if a worker was ever started or the context is done |
| `AsyncRunnerRest.CancelledPoolStops` | funcs.go:79-81 | the context can be cancelled in any state, and without new submissions every schedule is then bounded and comes to rest with every worker gone and the wait group at zero |
| `AsyncRunnerRest.GrowsWhileThereIsRoom` | funcs.go:109-115 | a submitter under the lock starts exactly one worker if fewer than max are counted, and none otherwise; then it unlocks and goes on to its send |
| `AsyncRunnerTheorems.BlockedSubmitterHasWorker` | funcs.go:104-117 | while a submitter is blocked in an open pool there is a live worker that has not been told to go |
| `AsyncRunnerTheorems.ProgressDecreases` | funcs.go:76-78 | every hand-off, completion and internal step decreases a measure |
| `AsyncRunnerTheorems.EveryScheduleServes` | funcs.go:104-118 | every schedule of an open pool is bounded by the measure and its timer ticks, and where only ticks remain every submitted task has run exactly once |
| `AsyncRunnerProofs.InvStep` | funcs.go:70-118 | every step of submitters, workers and the monitor keeps the pool's invariants |
| `AsyncRunnerProofs.InvRun` | funcs.go:70-118 | the invariants hold in every interleaving |
| `AsyncRunnerClass.AsyncRunner.constructor` | funcs.go:34-55 | an empty pool with its monitor started |
| `AsyncRunnerClass.AsyncRunner.Size` | funcs.go:57-59 | the counter, which for max below 2^31 - 1 is the number of unretired workers and lies between 0 and max |
| `AsyncRunnerClass.AsyncRunner.Apply` | funcs.go:104-118 | returns when a worker took the task, which is then running or done exactly once and before that neither; it goes past its select only if no worker was ready; a call that has not returned waits for a lock that is taken, or in its send with no worker in its select |
| `AsyncRunnerClass.AsyncRunner.Grow` | funcs.go:109-115 | the critical section never waits and unlocks, whatever the others do |
| `AsyncRunnerClass.AsyncRunner.Spawn` | funcs.go:70-72 | adds to the wait group and starts a worker |
| `AsyncRunnerClass.AsyncRunner.Work` | funcs.go:72-101 | a worker that exited did exactly this: passes that each ran one task from start to end or kept it, one pass that told it to go, and the wait group's Done; one that has not exited is at the lock or has stayed through every pass it was given |
| `AsyncRunnerClass.AsyncRunner.Select` | funcs.go:76-98 | one pass, with the worker's own actions in order: a task and its end, the cancelled context and its decrement, or a collection under the lock; nothing happens only if no case is ready |
| `AsyncRunnerClass.AsyncRunner.Collect` | funcs.go:83-95 | the worker is told to go exactly if the counter it read exceeds min or the flag is set; on the way out the decrement and the last one's close, and the unlock, in this order; once it has the lock it never waits |
| `AsyncRunnerClass.AsyncRunner.Leave` | funcs.go:87-91 | one decrement, and one close exactly if the decrement reached zero |
| `AsyncRunnerClass.AsyncRunner.CloseChannel` | funcs.go:90 | one more close; the process survives exactly the first |
| `AsyncRunnerClass.AsyncRunner.WaitClose` | funcs.go:61-64 | sets the flag, and returns exactly when the wait group is zero, which takes that monitor and workers are gone |
| `AsyncRunnerClass.AsyncRunner.Wait` | funcs.go:66-68 | returns exactly when the wait group is zero, which takes that monitor and workers are gone |

## Left out

- Frame bytes (amino, `funcs.go:378-394`): a frame is one value on a FIFO stream whose reads and writes may fail at any point; what a partly read frame leaves for the next read is not modelled.
- SHA-1 and the LRU memo in `hash`: the digest is taken to be injective, so a lock is named by namespace and key joined; pairs with equal joins share a lock here as there (LockSharedIff). No namespace is taken to equal a digest.
- Time: timers and deadlines are steps that may happen whenever their owner waits, also when the channel operation is ready at the same moment.
- The form of `to`: it is the canonical peer id, without an @. With a multiaddr the lock and cache keys used by the caller differ from those `put` computes (`impl.go:491-526`, `pool.go:81-90`).
- ProtocolService.Service.RequestWithTimeout: a `to` with an @ is excluded. The source ends such a call in an error unless the cache key it forms is that of another pair, as KeyIsSoleIff shows it can be; it would then use that pair's stream under a lock of its own.
- ProtocolService.Service.SendMsgAfterClose: a `to` with an @ is excluded, as for RequestWithTimeout.
- ProtocolService.Service.TakeLock: a `to` with an @ is excluded, as for RequestWithTimeout; KeyMutex.Lock takes any text.
- Protocol ids with an @: the protocol theorems allow them; DisconnectDropsOnlyPeer and DisconnectMakesGetMiss say what the hook then does, and PutRefinesFlat, Del2RefinesFlat and DelUndoesFreshPut are for ids without one.
- Unregistered protocols: RequestWithTimeout and SendMsgAfterClose then use a stream of their own; the bytes that arrive on it are a parameter, returned as they are, and its writes and reads fail as `Env` says.
- Registration during traffic: `has` is read several times in one call; handlers are registered before the first call.
- The `expire` branch of sendMsg and the option argument of put: `get` never reports expiry and nobody passes the option.
- The asynchronous work of fullClose: a close is counted when it is started; that it also reads from the stream on its own goroutine is not modelled. The disconnect hook can drop a stream on which a call still waits, and the close then competes with that call for the frames; the pairing theorems take each read as one whole frame there too, and do not cover a close that takes part of it.
- Protocol.DoServe: handler error texts are not empty there, since an empty one is read as success by the client; `HandlerFailureSeen` gives the exact condition. A write of the far end that is reported as failed may have delivered its frame or lost it; a part of a frame is a failed read of the client.
- Handlers: one call reads some bytes, writes some and returns; handlers that panic, keep the connection, or never return are not part of this model.
- ProtocolService.Service: a method cannot wait; one that finds the cache lock taken returns `Blocked`, which stands for a call still waiting there, and its contract says where. In the same way a method of the pool's object that returns early stands for a call that waits at the lock or in its send, or for a process that has panicked.
- ProtocolTheorems.RepliesArePaired: its condition speaks of stale Unlocks, which a caller cannot see; PairedUntilFirstClean and PairedWithoutOverlap give conditions a caller can see to, and PairingBearsNoClean shows that for the number of Cleans this is exact.
- KeyMutexProofs.GenerationsSound: for arbitrary users of the lock the part about closing is stated for Cleans that have not overlapped, since OverlappingCleansMisclose shows it fails otherwise; ProtocolTheorems.GenerationsSoundInProtocol has it without a condition for the users there are.
- KeyMutexProofs.NoStuckKey: on keys that suffered a stale Unlock only one direction is stated, since a token left behind there may be the one a later caller counts on.
- KeyMutexClass.KeyMutex.Unlock: its callers are goroutines whose Lock succeeded, as in impl.go, where Unlock is deferred after a successful takelock.
- AsyncRunnerTheorems.CloseAccounting: like the other results on the counter it is for a maximum below 2^31 - 1; CounterBoundExact shows why.
- AsyncRunner.Submitter: a send in Apply's select that finds no worker ready may also find one a moment later; the machine lets it take either branch, and `ready` in AsyncRunnerClass.AsyncRunner.Apply says which.
- StreamCacheClass.AStreamCache.Del2: the identity `me` of the cleaning goroutine is the model's; the cache lock itself, which keeps callers of the object apart, is part of the protocol machine.
- Message counters, metrics, logging, options, keys, discovery, pubsub, relay, the host and its connection manager: input and output over libraries that are not part of this model.
