# Verified model of grpctunnel

grpctunnel carries gRPC calls over one gRPC stream, the tunnel. This project models the parts of
it where goroutines, windows and peers interleave, and proves what the protocol is for: every
message arrives, in order, however it was cut up and however slow some other stream is.

| file | models |
|---|---|
| `Framing.dfy` | envelope and continuation frames, what they are charged, chunkings of a message, a reference parser |
| `Grammar.dfy` | which frames carry which messages, said without a parser, and that the parser agrees on every sequence of frames |
| `FlowControl.dfy` | `flow_control.go`: the critical sections as pure functions, `Receiver` and `Sender` as classes, the sending loop under interference |
| `Link.dfy` | one direction of a stream as a step system at the granularity of the atomic operations, and its invariant |
| `Delivery.dfy` | what holds over all runs of a link: conservation, stall freedom, wake-ups, termination, total delivery |
| `Mux.dfy` | any number of links on the two FIFO wires of a tunnel; slow-stream isolation |
| `Wakeup.dfy` | the receiver's condition variable with closing, cancelling and any number of consumers |
| `Reader.dfy` | `readMsgLocked` and `readMsg` of both ends while nobody interferes, against a recursive decoder and against the parser |
| `ServerReads.dfy` | the server's reads as a step system, interleaved with `halfClose` and the context watcher |
| `Negotiation.dfy` | revision negotiation, option defaults, the checks that reject a single stream |
| `StreamIds.dfy` | stream IDs: `allocateStream`, `newStream`, `createStream`, `getStream`, `serve`, and the two ends together |
| `ClientStream.dfy` | how a client stream ends |
| `ClientCall.dfy` | what a non-streaming call returns, from the first message sent to the way the stream ended |
| `ServerStream.dfy` | how a server stream completes |
| `ReversePool.dfy` | the pools of reverse tunnels, and round robin |
| `Wrappers.dfy` | the optional value that several of these use |

Conventions. A class is the source's object and its methods are the source's methods; where the
source holds a lock, the method is the section under that lock. Each method is proved against a
pure function of the old state, and `Sender.Send`, whose loop runs under interference, against
what it promises. The step systems interleave such functions: `Link` and `Mux` those of
`FlowControl`, `StreamIds` those of its two classes, `ServerStream` those of its class, and
`ReversePool` those of its pools. A method of `TunnelClientStream` takes several steps of its step
system: its new state is that of the first step and everything the winner then does, which
`CallIsRun` shows to be a run. Likewise `Undisturbed` shows that an uninterrupted run of the
reader in `ServerReads` is the read of `Reader`. So a theorem about every run of a step system is
about every schedule of the critical sections and atomic operations. A run is a list of steps,
each enabled in its turn. A frame's bytes stand for the serialized message; wires are reliable
FIFOs; time, contexts and cancellation are steps that may happen at any moment. `uint32` and
`int64` counters are bounded types, with the wrap-around of atomic addition and of
`lastStreamID++` written out.

What the proofs found in the code, each with a concrete run or input and the exact condition:

- A non-streaming read returns its message even if a second message follows that was begun and
  never finished, because running out of frames in the middle of a message is reported as a plain
  end of file (`ReadOneMeetsPromise`, `ReadOneIgnoresTruncatedSecond`).
- A server's read looks at its context before it dequeues, but not after. If the deadline expires
  in between, the watcher cancels the receiver without setting the error the read looks for, and
  the read of a client-streaming method returns an empty message that nobody sent, at most once per
  stream (`ReadsExact`, `PhantomExact`, `PhantomRun`). The read of a non-streaming method never
  does; but if it has its message and is looking for a second one, the call fails for having
  received two (`SingleReadExact`, `SpuriousSecondRun`).
- The check for exhausted stream IDs precedes the increment, so one stream too many is let through,
  with a negative ID that makes the server end the whole tunnel; and even if that stream is refused
  for its call options, the next late reply to a stream that is gone makes the client end it
  (`AllocationExact`, `LateReplyExact`, `EveryIdIsReached`).
- When a server stream is finished by something other than its handler's return, data the handler
  is still sending can overtake the response headers, and can follow the close, although the
  protocol file asks for headers before data (`DataOrder`, `CancelledDataOvertakesHeaders`).
- One consumer per receiver is not a convenience: with two, wake-ups are lost
  (`SingleConsumerExact`).

The protocol file says stream IDs are expected to start at zero (proto/grpctunnel/v1/tunnel.proto:81-84); the code
starts at one, and leaves a gap when call options are refused. The model follows the code.

## Model

| member | source | states |
|---|---|---|
| Framing.RoundTrip | tunnel_client.go:808-858 | whatever chunking a message is sent in, parsing its frames yields exactly that message and nothing pending |
| Framing.RoundTripAll | tunnel_server.go:544-602 | any list of messages, each cut up in any way, parses back to that list |
| FlowControl.Sender.Send | flow_control.go:111-158 | for every schedule of window updates, cancellation and retries: the frames are a chunking of the message (first one flagged with the full size, no chunk empty or above the maximum), a failed or parked call has sent a proper prefix of one, and the window lost exactly the charge of the frames, modulo counted wrap-arounds; a call still parked has found no room for another byte, and one that failed had none at some point of the schedule, so credit for the whole message is enough, and then, undisturbed, it takes no more frames than it must |
| FlowControl.Sender.Pass | flow_control.go:119-144 | one pass of the loop waits exactly if the window it loaded has no room for another byte; otherwise the chunk is all that is left, the maximum, or all that the window has, and chunk and overhead are what the window loses |
| FlowControl.Sender.UpdateWindow | flow_control.go:95-109 | the window grows by the update with 32-bit wrap-around, and a token is left exactly if the window was at most the overhead |
| FlowControl.Sender.Select | flow_control.go:131-139 | the wait ends only by a token or by the context; a sender still waiting has the window it found, whatever struck meanwhile |
| FlowControl.Sender.CompareAndSwap | flow_control.go:141-144 | the swap takes exactly the charge, and fails exactly if the window has changed |
| FlowControl.Sender.constructor | flow_control.go:74-93 | the maximum chunk is clamped to the initial window |
| FlowControl.Receiver.constructor | flow_control.go:187-207 | the update minimum is clamped to the initial window and all credit is free |
| FlowControl.Receiver.AcceptItem | flow_control.go:219-237 | a frame is queued and charged, ignored after closing, or rejected without any change |
| FlowControl.Receiver.Dequeue | flow_control.go:262-304 | item, end or wait, by state; an update is sent exactly if what is pending reaches the minimum or the window had run down to the overhead, and acknowledges all of it; no 32-bit counter can wrap |
| FlowControl.Receiver.Close | flow_control.go:239-243 | closing keeps what is queued |
| FlowControl.Receiver.Cancel | flow_control.go:245-250 | cancelling drops what is queued |
| FlowControl.AcceptBalanced | flow_control.go:219-237 | accepting keeps the accounts; it is refused exactly if the charge exceeds the window, and then nothing changes |
| FlowControl.TakeBalanced | flow_control.go:276-297 | dequeuing keeps the accounts; exactly when an update is due, and that it is all that is pending and what the window regains; an emptied queue leaves room for the smallest next chunk |
| FlowControl.AnyPeerBalanced | flow_control.go:219-297 | against any peer, after any run: window, queue and pending acknowledgement add up to the initial window, and acknowledged bytes are the dequeued ones except a remainder below the minimum |
| FlowControl.UpdatesAreBatched | flow_control.go:281-289 | without an overhead, over every run: the updates sent, times the minimum, are at most the bytes taken |
| Grammar.ParseExact | tunnel_client.go:808-858 | for every sequence of frames and every parse: the parser ends with it exactly if the frames are one group per message and a rest that fits; so each error is reported exactly for its cause |
| Grammar.CompleteExact | tunnel_server.go:544-602 | frames parse to messages with nothing left over exactly if they are one group for each: an envelope with the size, and continuations that complete it with the last and not before |
| Grammar.RejectedExact | tunnel_server.go:572-599 | frames are rejected exactly if they are not the front part of any sequence of messages |
| Grammar.AnnouncedExact | tunnel_client.go:829-853 | whatever the frames: every message is exactly as long as its envelope announced, and what is being assembled is shorter |
| Grammar.ChunkingIsGroup | flow_control.go:146-156 | what a sender emits for a message is such a group |
| Link.EmitParse | flow_control.go:147-156 | handing over a chunk moves the parse of everything sent to the sender's new position |
| Link.EmitInv | tunnel_client.go:454-472 | what was taken from the window for a chunk is what the receiver will charge for its frame |
| Link.DeliverData | flow_control.go:219-237 | a frame of a conforming sender never exceeds the receiver's window |
| Link.ApplyWakes | flow_control.go:95-109 | the condition for signalling suffices for any update of any peer, even one that wraps the window |
| Link.StepInv | flow_control.go:95-304 | every atomic step of either end keeps the whole invariant |
| Delivery.WeightDrops | flow_control.go:95-304 | every step of every interleaving, stale loads and failed swaps included, decreases a natural number |
| Delivery.StuckIsDone | flow_control.go:95-304 | a link in which no step is possible has delivered everything and told the reader of the end |
| Delivery.CreditConserved | flow_control.go:141-142 | in every reachable state all credit is accounted for between the two ends, and the window check has never failed |
| Delivery.StallFree | flow_control.go:276-296 | in every reachable state with an empty queue the receiver's view of the window is at least overhead plus one, so with nothing in flight the sender can send its next chunk |
| Delivery.NoLostWakeup | flow_control.go:131-139 | in every reachable state a parked sender is short of credit or about to be woken, and a waiting consumer has nothing to do |
| Delivery.AnyPeerWakesSender | flow_control.go:95-139 | the sender's half of that, for updates of an arbitrary peer |
| Delivery.SenderChunks | flow_control.go:111-158 | for any grants of any peer, the sender of the step system emits one complete chunking per finished message, in order, and a proper prefix of one for the message in progress: the contract of the sending loop |
| Delivery.TotalDelivery | flow_control.go:95-304 | for any messages and any valid configuration: runs are bounded, what is read is always a prefix of what is sent, the end is reported only after everything, and a run that cannot go on has delivered everything |
| Mux.Refines | tunnel_client.go:572-585 | every step of the tunnel is a step of exactly one link, and every other link's view is unchanged |
| Mux.OwnFramesInOrder | tunnel_server.go:85-121 | whatever the other links do, each link accepts exactly its own frames, in order, and its reader has a prefix of its messages |
| Mux.RunsAreFinite | flow_control.go:160-169 | every run of the whole tunnel is bounded, whichever consumers stop |
| Mux.Isolation | flow_control.go:160-169 | if any set of consumers stops for good, then once nothing else can move all other links have delivered everything |
| Wakeup.OneConsumer | flow_control.go:219-260 | with one consumer, in every order of arrivals, closing and cancelling, it sleeps only on an empty, open queue |
| Wakeup.SingleConsumerExact | flow_control.go:231-235 | wake-ups can be lost exactly if there is more than one consumer |
| Reader.MessageReader.ReadMsgLocked | tunnel_server.go:544-602 | while nobody interferes: the call takes a front part of the queue, and returns the message that these frames are, or the error of the last of them, or what the holder has if they are an unfinished message; it agrees with the recursive decoder, and leaves its state |
| Reader.MessageReader.ReadMsg | tunnel_server.go:522-542 | streaming and non-streaming reads in terms of it |
| Reader.ScanIsParse | tunnel_server.go:544-602 | one read accounts for exactly a front part of what the parser finds, for any frames |
| Reader.ReaderRefinesParser | tunnel_client.go:808-858 | for every frame sequence, well-formed or not, successive reads return the parser's messages and then always the same error; on a server whose context has ended, its error throughout |
| Reader.ReadsArePrefix | tunnel_client.go:808-858 | in every reachable state of a link the reads of what has arrived return the messages sent, in order, as far as they are complete |
| Reader.EndToEnd | tunnel_client.go:773-858 | after any complete run of a link the reads return exactly the messages sent, then end of file |
| Reader.ReadOneExact | tunnel_client.go:785-806 | what an undisturbed non-streaming read returns: when data, and otherwise which error |
| Reader.ErrorsAreKept | tunnel_client.go:812-818 | every error is final, and after a message a non-streaming reader only returns end of file |
| Reader.ReadOneMeetsPromise | tunnel_server.go:522-542 | that agrees with "one complete message and a clean end" exactly unless a second message was begun and not finished |
| Reader.ReadOneIgnoresTruncatedSecond | tunnel_client.go:800-802 | an input of that kind |
| Reader.EndIsReported | tunnel_server.go:556-569 | an undisturbed read succeeds exactly if the context is live and a message is there |
| ServerReads.EndIsSettled | tunnel_server.go:614-619 | over every interleaving, a queue at its end has the final error set or a context that has ended: what the theorems about undisturbed reads rely on |
| ServerReads.ReadsExact | tunnel_server.go:544-602 | over every interleaving, the reads' messages are exactly those in the frames taken, followed by one empty message exactly if some read checked a live context and loaded an unset error |
| ServerReads.PhantomExact | tunnel_server.go:556-569 | from any reachable state that can still happen exactly if no error is kept, the final error is unset, and the context is live or the reader is past its check |
| ServerReads.OnePhantom | tunnel_server.go:544-570 | after it every read returns an error |
| ServerReads.SingleReadExact | tunnel_server.go:522-542 | a non-streaming read never returns it: data is the only message in the frames taken; the complaint about a second message is justified except if there is one message and the phantom |
| ServerReads.PhantomRun | tunnel_server.go:604-619 | the run in which the deadline expires while a read is in `dequeue`: an empty message for a streaming method, the context error for a non-streaming one |
| ServerReads.SpuriousSecondRun | tunnel_server.go:526-540 | the run in which a call with one request message fails for having sent two |
| ServerReads.Undisturbed | tunnel_server.go:544-602 | with nobody else at work, the steps of a streaming read return the decoder's result and leave its state |
| Negotiation.Negotiate | tunnel_client.go:541-568 | for any advertised list the revision chosen is the largest one both ends support; which failure is reported otherwise |
| Negotiation.NegotiationFeedsFlowControl | options.go:86-104 | with any options, two ends of this package agree on revision two, the stream is not rejected for it, and both directions are configurations that total delivery covers |
| Negotiation.AdmittedIsUsable | tunnel_server.go:156-173 | with any peer, what passes the checks of both ends is such a configuration |
| Negotiation.JudgeExact | tunnel_server.go:153-213 | which streams are admitted, and when each reason for turning one away is given |
| Negotiation.InitOptionsExact | options.go:86-104 | zero asks for the default, everything else is kept except that a window has a minimum |
| StreamIds.TunnelChannel.AllocateStream | tunnel_client.go:364-388 | the ID, the map and the error of an allocation; a refused call option uses the ID up |
| StreamIds.TunnelChannel.GetStream | tunnel_client.go:588-603 | live streams are found, used IDs ignored, others are a protocol error |
| StreamIds.TunnelServer.CreateStream | tunnel_server.go:130-173 | an ID counts as seen before the stream can be rejected alone; a used one is a protocol error; exactly an admitted stream is stored, with nothing received yet |
| StreamIds.TunnelServer.GetStream | tunnel_server.go:303-318 | live streams are found, seen IDs ignored, others are a protocol error |
| StreamIds.Serve | tunnel_server.go:85-121 | the receive loop while other goroutines remove streams: it ends the tunnel exactly at a frame with an ID that is not new or never seen, which a conforming client does not send; until then it has exactly the streams admitted and not removed, each handed exactly its own frames |
| StreamIds.StepInv | tunnel_client.go:329-362 | every step of client and server keeps the protocol's invariant while IDs last |
| StreamIds.NoProtocolError | tunnel_server.go:85-121 | over every run, neither end aborts, new streams arrive in strictly increasing order and before any other frame of theirs, and each end has exactly the streams admitted, or allocated, and not removed since, each handed exactly its own frames |
| StreamIds.GoneForever | tunnel_server.go:143-150 | a rejected or removed stream never comes back |
| StreamIds.LateFrameIsNoOp | tunnel_server.go:303-318 | any later frame for it changes nothing |
| StreamIds.ClientGoneForever | tunnel_client.go:364-388 | a stream the client has used and lost never comes back |
| StreamIds.LateReplyExact | tunnel_client.go:588-603 | a later reply to it changes nothing exactly as long as the IDs have not run out, and then aborts the tunnel |
| StreamIds.ClosedForGood | tunnel_client.go:368-376 | a closed channel never has a stream again |
| StreamIds.AllocationExact | tunnel_client.go:378-384 | asking for a stream can bring the tunnel down exactly if the tunnel is open, the largest ID has been used, and the stream is allocated or some other one was ever announced |
| StreamIds.EveryIdIsReached | tunnel_client.go:378-384 | every ID, and so those states, are reached by some run |
| ClientStream.EndsOnce | tunnel_client.go:922-953 | over every interleaving: status written once, each signal closed at most once, at most one Cancel, and every reader told of the end saw the status of the first finisher and its trailers |
| ClientStream.FirstWins | tunnel_client.go:922-934 | the first finisher decides status and trailers for good; the status is end of file exactly for success, and otherwise has the cause's code |
| ClientStream.FirstHeaders | tunnel_client.go:873-885 | the first headers are the stream's for good, and none are once its end is published |
| ClientStream.QueuedSurvives | tunnel_client.go:905-910 | unless the stream was cancelled locally, queued data stays readable in order and the end is reported only after it |
| ClientStream.CallIsRun | tunnel_client.go:905-953 | a call that is not interleaved with others is a run of the step system, so what holds over every run holds between calls |
| ClientStream.TunnelClientStream.FinishStream | tunnel_client.go:922-953 | the winner's new state is that after the compare-and-swap and the step system's next four steps, with the status its cause calls for; a losing call changes nothing |
| ClientStream.TunnelClientStream.CancelStream | tunnel_client.go:905-920 | the step `Finish` and, for the winner only, all six steps after it: the queue is dropped and one Cancel sent |
| ClientStream.TunnelClientStream.AcceptHeaders | tunnel_client.go:873-885 | the step for headers: only the first ones count, none after the end |
| ClientStream.TunnelClientStream.AcceptData | tunnel_client.go:898-901 | the step for data, and if it exceeds the window and wins, the four steps after it; the stream then ends with RESOURCE_EXHAUSTED |
| ClientStream.TunnelClientStream.Dequeue | tunnel_client.go:822-826 | the reader's step: at the end of the queue it finds the final status |
| ClientCall.CallOutcome | tunnel_client.go:785-826 | over every run of a stream: a non-streaming call succeeds exactly if the stream was first finished with OK and one message can be read; finished otherwise, it returns that cause's code |
| ClientCall.UnaryCall | tunnel_client.go:773-826 | a message sent through a link is what the call returns, if and only if the stream is closed with OK |
| ServerStream.CompletesOnce | tunnel_server.go:637-688 | over every interleaving at most one headers and one close frame, headers first; a finished stream that has quiesced has sent exactly one of each |
| ServerStream.OneResponse | tunnel_server.go:493-496 | a method that is not server-streaming never begins a second response, over every run |
| ServerStream.NormalCompletion | tunnel_server.go:604-635 | while only the handler's return finishes the stream, headers precede all data and the close follows it |
| ServerStream.DataOrder | tunnel_server.go:483-508 | in every reachable state, the next data goes out behind the headers exactly if the headers are not the spawned goroutine's to send, and behind the close exactly if that goroutine has finished; it keeps the wire well formed exactly in between |
| ServerStream.CancelledDataOvertakesHeaders | tunnel_server.go:657-679 | a run in which they are |
| ServerStream.LockIsReleased | tunnel_server.go:637-643 | over every run, the holder of the write lock depends on a window update exactly if it is short of credit and the context is live; while a `finishStream` waits the lock is free or its holder can go on by itself, within a bound |
| ServerStream.FinishCompletes | tunnel_server.go:637-688 | once `finishStream` has been called by anyone, the stream goes on to send one headers and one close without any window update and without the handler returning |
| ServerStream.TunnelServerStream.SetHeader | tunnel_server.go:410-424 | the new state; refused exactly after headers were sent |
| ServerStream.TunnelServerStream.StartMsg | tunnel_server.go:483-496 | headers go first, and a second response of a non-streaming method is refused |
| ServerStream.TunnelServerStream.FinishLocked | tunnel_server.go:642-687 | only the first call hands headers and close to the goroutine |
| ReversePool.AddMembers | handler.go:328-337 | membership after adding, with `avail` closed exactly while there are members |
| ReversePool.RemoveMembers | handler.go:339-355 | membership after removing, and whether the channel was there |
| ReversePool.RemoveEntries | handler.go:344-351 | the key handed back is the one the removed channel was added with, and the other entries stay |
| ReversePool.ReverseChannels.AddChannel | handler.go:328-337 | the new pool; `avail` is never closed twice |
| ReversePool.ReverseChannels.RemoveChannel | handler.go:339-355 | the first entry of the channel is spliced out, its key handed back, and `avail` renewed for an emptied pool |
| ReversePool.ReverseChannels.Pick | handler.go:310-326 | round-robin successor, in range from any stored index |
| ReversePool.RoundRobin | handler.go:310-326 | from any stored index, k rounds of picks select each channel exactly k times |
| ReversePool.PoolsAgree | handler.go:210-266 | under any interleaving of registrations and closes: `avail` matches emptiness, each key's pool has exactly the global pool's channels with that key among those registered and not closing, returned calls have left no channel behind, and the key `unregister` goes by is the channel's |
| ReversePool.GoneForGood | handler.go:235-265 | nothing later, nor an `unregister` still under way, brings a returned channel back |
| ReversePool.ClosedForGood | handler.go:253-266 | closing a channel that has been put into the global pool takes it out for good, and `unregister` takes it out of its key's pool |

## Left out

- Sender.Send: `updateWindow` is a single event there; its addition and its later signal are separate steps in `Link`.
- Sender.Select: when both a token and the end of the context are ready, either may be taken, as in the source, and the proof covers both.
- Receiver.Dequeue: one pass of the loop; sleeping on the condition variable is a step of `Link` and `Wakeup`. The type parameter is instantiated with frames.
- TotalDelivery: the messages are those that `SendMsg` does not refuse for exceeding 2^32-1 bytes, and nobody cancels the stream.
- ReaderRefinesParser: about reads nobody interferes with; on the server, interference is `ServerReads`, and a client's queue ends only after its final status is set (`EndsOnce`).
- Undisturbed: about streaming methods; a non-streaming read is two of these looks.
- LockIsReleased: that Go's mutex lets every waiter in eventually is not modelled, nor is a transport whose `Send` blocks.
- NoProtocolError: handling of a stream's own frames is reduced to handing them over; a stream may be removed at any moment instead.
- Transport: serialization, partial sends, errors of `Send`, and the transport's own back-pressure; wires are unbounded.
- Establishment: timeouts and the header handshake; a run starts when the tunnel's stream is up, with the settings frame still to come.
- Metadata, trailers' content, credentials, method lookup, deadlines from headers and error texts: plumbing around what is modelled.
- `Header`, `Trailer`, `CloseSend` and `Invoke` of the client: reads of the state in `ClientStream`, or calls of what is modelled.
- `ReverseTunnelServer`'s start and stop, and the mutex wrappers of the generated streams: delegation.
- `waitForReady`: that a waiter returns follows from `avail` being closed exactly while the pool has members.
