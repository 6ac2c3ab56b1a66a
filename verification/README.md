# A verified model of the TCP link

This project models the two halves of a TCP link of the library and proves what they do over every run.

* **Receiving** (`tcp.c`, `ncb.c`, `packet.c`). Segments of any length become user messages. Frames that fit
  the receive buffer are cut in place and the remainder is moved to the front; longer ones are gathered in a
  heap block over many completions. `ControlBlock` holds the classes for `ncb_t` and the receive packet,
  `Reassembly` the handlers as methods that change them, and `Reassembly.Receive` a whole run of completions.
  `Framing` says, without buffers or segments, what a byte stream means: the only division of it into whole
  frames and a remainder.
* **Sending** (`tcp.c`). Any number of threads call `tcp_write` and any number of completions run at once.
  `SendMachine` is a machine whose steps are the single interlocked, locked and outside operations.
  `SendInvariants`, `SendOwnership` and `SendWire` show what each step keeps, `SendTheorems` what follows for
  every run, `SendWork` that every run comes to rest, and `SendProgress` what runs there are. `SendProgram` gives the same functions in their written
  form, as methods of a class whose statements are steps of the machine with the other threads running in
  between, so that a program counter of the machine is a position in `tcp_try_write` or in one of its callers.
* **Both** (`EndToEnd`). The sender's wire, an in-order byte stream (section 2.2 of RFC 9293), and the receiver
  together hand over the accepted payloads in order. `TornSend` shows why nothing may go out behind a packet that was cut short.
* **Accepting** (`AcceptMachine`, `AcceptPool`). The pool of outstanding accept requests of a listener, again as a
  machine of interleaved steps, and the functions in their written form as runs of it.

## How to read it

The receive buffer's length (`TCP_RECV_BUFFER_SIZE`, 17 pages) and the header length are parameters. The parser
and the builder are arbitrary pure functions, and the builder may refuse sizes. `Template.Lawful` is the law
between them, for the sizes that are not refused; only the theorems about both ends assume it, and
`Templates.BigEndianIsLawful` gives callbacks that obey it for every header length. `Ncb` records the run in three
fields: `received`, `cut` (the stretch of the stream each callback was made for) and `handed` (what the callback
got). `Reassembly.Posted` is the state in which a receive is outstanding; every handler either re-establishes it or
frees the packet, and `RecvPacket.Free` cannot be called twice.

The calls that leave the program are arbitrary outcomes: memory, posts and references may fail at any
time, a posted operation completes once, and a successful send completion carried the whole packet. The
machine has a history (`SendMachine.History`): who holds the right to submit, where each packet is, and
what was appended, submitted and freed. A send that fails without ending the link is `skipped` when none of its
bytes had gone out; when a part of them had, its packet was `cutShort`, and the run is `torn` once a byte has gone out
behind it. `trail` records what each thread has done, in order. `SendTheorems.HistoryIsPassive` shows that
no step depends on the history.
`NextPc` is the control flow, and `NextLock`, `NextQueue`, `NextListSize`, `NextPending`, `NextKernel`,
`Handover` and `Frees` list for each variable the operations that touch it. `AcceptMachine` is laid out the same way.

## What the code does not do

* `LINKATTR_TCP_FULLY_RECEIVE` keeps the header for frames cut in place (tcp.c:321-327) and not for large ones
  (tcp.c:227-228). So the buffer's size can be observed; `Framing.BufferSizeTransparency` says exactly when.
* `tcp_settst` (tcp.c:956-958) does not bound the header length. With a header longer than the buffer a link
  comes to ask for zero bytes, and ends; `Reassembly.RequestHasRoom` says exactly when, `Reassembly.HeaderTooLong`
  is such a run.
* With a builder and a serializer together the serializer is told `cb - cb_` bytes (tcp.c:1324).
  `EndToEnd.SerializerRoundTrip` shows that a copying serializer then leaves the message whole exactly when there
  is no header.
* After a send that failed half way the next packet is sent behind the torn one (tcp.c:843-849);
  `TornSend.TornSendBreaksOrder` gives the run.
* After a failed accept the result of `tcp_syn` is not looked at (tcp.c:917-919). If the packet cannot be
  allocated the pool stays one short and the listener stays open. A fresh object that cannot be referenced counts as a
  posted request (packet.c:141-153). `leaked` counts exactly these two events; `AcceptPool.LeftWithoutRequests` is a run that loses the last request.
* A connection that was accepted for a listener that is gone is left open (tcp.c:622-625), and so is a fresh object
  that could not be referenced; these are the objects whose place is `Stray`.
* The comment at tcp.c:677 says the pending count goes to zero. It goes to one while a writer holds the lock
  between its increment and its decrement; `SendTheorems.PendingAccounting` gives the value in every state.
* The limit of 500 (tcp.c:30) is never reached: 499 packets can be queued (`SendProgress.RefusalsOccur`).

## Model

| member | source | states |
|---|---|---|
| Templates.BigEndianIsLawful | tcp.c:1319 | callbacks that obey the law exist for every header length: one byte is enough for messages up to 255 bytes, and from four bytes on no message is refused |
| Framing.ParseIsFraming | tcp.c:280-343 | cutting frames from the front divides the stream into frames and a remainder from which no frame can be cut; a bad header is reported exactly when one stopped the cutting |
| Framing.FramingUnique | tcp.c:280-343 | a stream has at most one such division: frames are a prefix code |
| Framing.ParseIsTheFraming | tcp.c:280-343 | what is parsed is the one and only division, in both directions |
| Framing.ParseResume | tcp.c:338-343 | stopping after any prefix and resuming from its remainder gives the frames of the whole stream |
| Framing.BadHeaderIsFinal | tcp.c:287-295 | after a header that is refused, negative or above 50 MiB, more bytes never change the frames |
| Framing.BadHeaderArrives | tcp.c:283-295 | such a header is noticed as soon as its last byte is there |
| Framing.SizeLimits | tcp.c:287-310 | a header that announces 0 to 52428800 bytes starts a frame of that length, whole or not, and any other number ends the stream |
| Framing.RestIsShort | tcp.c:283-316 | the remainder is shorter than a header, shorter than the frame it announces, or starts with a bad header |
| Framing.ByteConservation | tcp.c:333-343 | every byte is in exactly one frame or in the remainder |
| Framing.BufferSizeTransparency | tcp.c:301-331 | two buffer sizes give the same deliveries if and only if the attribute is clear or no frame fits one and not the other |
| ControlBlock.Ncb.constructor | ncb.c:34-41 | a fresh control block has no large block |
| ControlBlock.Ncb.MarkLb | ncb.c:43-64 | exactly when the asked length is no smaller than the bytes to copy and memory is there, a block of that length starts with those bytes; what each failure leaves in the fields |
| ControlBlock.Ncb.UnmarkLb | ncb.c:66-80 | the block is freed and the fields are cleared, and the assertion in it holds |
| ControlBlock.RecvPacket.constructor | packet.c:65-72 | the first request covers the whole buffer |
| ControlBlock.RecvPacket.Fill | packet.c:209-212 | a completion changes the buffer only from the requested position on |
| ControlBlock.RecvPacket.Free | packet.c:83-110 | a packet is freed at most once |
| Reassembly.Open | tcp.c:788-807 | a connected link is ready to receive; without memory or when the post fails it is closed, and the packet freed |
| Reassembly.LbAssemble | tcp.c:175-243 | the block gathers the segment, or its frame is handed over whole and the rest of the segment stands at the front of the buffer; both assertions and all copies are in bounds |
| Reassembly.ParseTurn | tcp.c:282-331 | one turn of the parse loop: too short, bad, handed to a large block whose guard never refuses, or one frame handed over in its shape |
| Reassembly.KeepRest | tcp.c:338-343 | the remainder is moved to the front |
| Reassembly.CutFrames | tcp.c:280-331 | the loop cuts exactly the frames of the stream, stops on the remainder, and stops for the reason the remainder gives |
| Reassembly.ParseFrames | tcp.c:280-345 | all frames behind the position are handed over, the remainder is kept in the buffer or in a block, and the call fails exactly for a bad header or a large frame without memory |
| Reassembly.ParseLogicPacket | tcp.c:245-346 | the same for the whole function, which without a header makes one callback, with the chunk as it came |
| Reassembly.FillMarked | tcp.c:716-721 | after the large-block step the stream is settled, or exactly the rest of it is still to be parsed |
| Reassembly.ParseAndRewind | tcp.c:724-732 | afterwards the request covers exactly the free part of the buffer |
| Reassembly.Reassemble | tcp.c:711-734 | after a segment, everything handed over and kept is what the longer stream means; it fails exactly for a bad header, or for want of memory when a large frame begins |
| Reassembly.DispatchIoRecv | tcp.c:688-746 | the packet is posted again with all invariants, or freed and the link closed; a link that takes bytes ends exactly if the post fails, a bad header came, or a large frame begins without memory for it; without a header each segment is one callback; nothing handed over is ever wrong |
| Reassembly.DispatchRecvException | tcp.c:810-833 | an error ends the link and frees the packet |
| Reassembly.Complete | tcp.c:688-833 | one completion of a run, with bytes or with an error: a link whose packet is posted again stays as it was; otherwise it is closed, unless bytes or an error came that nobody could handle because the link was gone; bytes that are taken end it exactly as in DispatchIoRecv |
| Reassembly.Receive | tcp.c:688-833 | over every run of completions, of any lengths and outcomes, failed ones included, what was handed over is what the bytes taken mean, and while the link can be referenced it is closed exactly when it has ended; when all goes well what was handed over is what the whole stream means, and the link stays open exactly if the stream has no bad header |
| Reassembly.HandedIsDelivered | tcp.c:688-746 | what the user has been handed depends on the bytes received alone; without a header the chunks add up to the stream |
| Reassembly.WhatIsHanded | tcp.c:225-331 | the frames cut and the bytes kept are the stream; with the attribute a frame that fits the buffer is handed over as it came, any other one without exactly its cb header bytes, so if all fit, what was handed over and what is kept are the stream again |
| Reassembly.EagerDelivery | tcp.c:716-738 | when a receive is posted, the kept bytes are neither a whole frame nor a bad header |
| Reassembly.ReceivedConserved | tcp.c:333-343 | bytes received are the frames handed over plus the bytes kept |
| Reassembly.RequestHasRoom | tcp.c:731-732 | a request asks for bytes if and only if the header fits the buffer or the buffer is not full |
| Reassembly.HeaderTooLong | tcp.c:724-743 | a run in which a header longer than the buffer makes the link ask for zero bytes, whatever the segments, and then end with nothing handed over |
| Reassembly.SegmentationInvariance | tcp.c:688-746 | two links that received the same bytes cut the same frames and keep the same bytes, whatever the segments and the buffer sizes; they handed over the same data exactly when the attribute and the sizes do not tell them apart |
| Reassembly.MalformedDeterminism | tcp.c:287-295 | whatever the segments, the link is closed when the bad header is complete, having handed over exactly the frames before it |
| Reassembly.ReceiveMalformed | tcp.c:287-295 | the same over a whole run from the opening of the link; and when all goes well the bad header does arrive |
| SendInvariants.HolderAfter | tcp.c:144-149 | an operation leaves its thread with the right to submit exactly when it takes or keeps the token, and it never takes another thread's |
| SendInvariants.PendingRun | tcp.c:144-149 | every operation keeps the pending counter equal to the token out plus the lock holder's probe |
| SendOwnership.WakeRun | tcp.c:134-158 | every operation keeps someone bound to look at a non-empty queue |
| SendOwnership.OrderRun | tcp.c:131-155 | every operation keeps appended = submitted, in hand, drained, queued, in this order |
| SendOwnership.CoverRun | tcp.c:100-173 | no operation loses a packet |
| SendWire.WireComplete | tcp.c:843-849 | a send that fails before any byte has gone out leaves the wire as if it had never been submitted |
| SendWire.ShortComplete | tcp.c:843-849 | a packet that was cut short does no harm while nothing has gone out behind it, whatever becomes of the packets submitted after it |
| SendWire.WireIsPrefix | packet.c:171-180 | as long as no byte has gone out behind a packet that was cut short the wire carries the submitted packets, but for skipped ones, whole and in order; only the last may be incomplete |
| SendTheorems.InvReachable | tcp.c:105-173 | all invariants hold after every run |
| SendTheorems.HistoryIsPassive | tcp.c:105-173 | what can happen does not depend on the recorded history |
| SendTheorems.OneSendAtATime | tcp.c:144-170 | at most one send is posted, about to be posted, or being completed |
| SendTheorems.FifoSubmission | tcp.c:131-170 | packets are passed to asio_tcp_send in the order of the list appends, although that happens outside the lock |
| SendTheorems.AppendedAccounted | tcp.c:131-170 | every appended packet is submitted, in the one thread's hand, drained or queued, in order |
| SendTheorems.PendingAccounting | tcp.c:144-149 | tcp_write_pending_ is one while the token is out plus one for the lock holder's probe, between 0 and 2 |
| SendTheorems.CallsAreBounded | tcp.c:114-158 | every operation brings its thread closer to the end of its call, in every interleaving |
| SendTheorems.SecondProbeWins | tcp.c:144-149 | the retry loop turns at most once more, and then succeeds |
| SendTheorems.NeverStuck | tcp.c:118-158 | while a thread is inside, some thread can go on; the list is never empty where its first element is taken |
| SendTheorems.NoLostWakeup | tcp.c:139-158 | with packets queued on a link that is not ending and the lock free, a send is in the kernel, or a thread is about to post, to return the token or to call tcp_try_write |
| SendTheorems.QuiescentIsEmpty | tcp.c:139-158 | at rest on an open link the queue is empty and everything appended was submitted |
| SendTheorems.CounterIsLength | tcp.c:122-155 | outside the lock of a live link the counter is the length of the list, at most 499 |
| SendTheorems.RefusedExactlyWhenFull | tcp.c:122-128 | a writer is refused under the lock if and only if 499 packets are queued, and before the lock if and only if another one is being refused |
| SendTheorems.OwnedExactlyOnce | tcp.c:100-173 | every packet is in exactly one of: one thread's hands, the queue, the kernel, freed; none is queued or freed twice |
| SendTheorems.OnlyAllocatedPackets | tcp.c:1332-1343 | nothing else is ever queued, posted or freed |
| SendTheorems.NothingLeaks | tcp.c:453-462 | with the link unloaded, the list empty and nothing under way, every packet has been freed, and nothing that was never made (SendWork.StuckIsUnloaded: the list does become empty) |
| SendTheorems.UnloadIsExclusive | tcp.c:453-465 | when tcp_unload drains, no thread is in the lock, holds a reference or is about to post, and the counter is zero |
| SendTheorems.FailStop | tcp.c:663-668 | after a failed post, a completion of zero bytes or a disconnect, whatever steps follow, nothing is ever submitted again and what is queued is freed by tcp_unload only |
| SendWork.EveryStepWorks | tcp.c:105-173 | every step but a new request lowers what is left to do, whoever takes it and however the outside calls end |
| SendWork.StuckIsUnloaded | tcp.c:453-465 | a closed link on which nothing can go on has been unloaded to the end: the list is empty, nothing is under way and every packet ever made has been freed |
| SendWork.EveryRunRests | tcp.c:105-173 | every run without new requests ends within the work there was when it began; where it cannot go on with the link open, everything appended has been submitted and nothing is under way, and with the link closed it has been unloaded, the list is empty and every packet has been freed |
| SendProgress.RunOut | tcp.c:105-173 | a thread whose outside calls go well runs to its end, without closing the link or dropping a send |
| SendProgress.CanComeToRest | tcp.c:105-173 | from every state of an open link with no thread about to close it some run without failing sends brings it to rest, with all that was appended submitted and nothing left in queue or kernel |
| SendProgress.IdleLinkSends | tcp.c:1269-1356 | from an open link at rest some run of one tcp_write gets its packet to the kernel, behind all that was appended and submitted before |
| SendProgress.BusyLinkQueues | tcp.c:122-149 | while a send is in the kernel some run of one tcp_write adds its packet to the queue |
| SendProgress.RefusalsOccur | tcp.c:122-128 | for every message that can be sent there is a run with 499 packets queued in which one writer is turned away under the lock and another one before it |
| SendProgress.CompletionCloses | tcp.c:663-671 | a completion of zero bytes, or a disconnect or reset status, can always be handled: the packet is freed, the link closed, the queue left to tcp_unload |
| SendProgress.FailedPostCloses | tcp.c:165-170 | a write on an idle link whose post fails: the packet is freed, the link closed, and nothing has gone out |
| SendProgress.CanBeUnloaded | tcp.c:453-465 | from every link on which nothing is under way some run closes it, drains the list and frees every packet ever made |
| SendProgress.UnloadFreesQueued | tcp.c:453-465 | a run in which the first send of a link fails with a second packet queued behind it: that one is never submitted, and tcp_unload frees it |
| SendProgram.OthersAreElsewhere | tcp.c:105-173 | no step of another thread moves this one or takes back history |
| SendProgram.RunRan | tcp.c:105-173 | where a thread goes, what it has freed, linked or closed, and what its operation returned |
| SendProgram.LockHolderRuns | tcp.c:118-158 | the lock holder can always go on and comes closer to leaving |
| SendProgram.Link.AwaitLock | tcp.c:118 | when no other waiter gets in first, a thread gets the lock after finitely many operations of its holder; none of them moves the waiting thread |
| SendProgram.Link.Enqueue | tcp.c:122-131 | the packet is linked; or the counter is found full, and the packet refused and left alone |
| SendProgram.Link.TakeToken | tcp.c:144-149 | the loop ends, in the branch that pops or in the one that returns |
| SendProgram.Link.PopNext | tcp.c:152-158 | the thread leaves the lock with a packet to post |
| SendProgram.Link.PostNext | tcp.c:168-170 | the thread returns after the post, whatever its outcome; when it failed, the link is closed |
| SendProgram.Link.TryWrite | tcp.c:105-173 | -1 leaves the packet with the caller and unlinked, and means that the counter was found full; 0 means that it was linked and is not the caller's; which of looking, posting and closing the thread has done, in order |
| SendProgram.Link.Write | tcp.c:1269-1356 | 0 means that a packet was linked; without a serializer its data is the user data, whatever was in the memory before, with one it is what the serializer made of it; after an error a packet that was made has been freed; none is made without memory, for a size the builder refuses, or when the serializer fails, and with these in order, without a builder or with one, every size from 1 to 52428800 bytes is linked unless the counter was found full or the link is gone; a bad length and a link that is gone change nothing and have their own results |
| SendProgram.Link.DispatchIoSend | tcp.c:653-686 | on every path the completed packet is freed and the thread leaves; zero bytes close the link; otherwise, unless the link is gone, the token is returned, then the list is looked at, and then the next packet posted if the thread gets the token |
| SendProgram.Link.DispatchIoException | tcp.c:810-853 | the same for a send that completed with an error, where a disconnect or reset status closes the link |
| SendProgram.Link.DispatchIoEvent | tcp.c:856-883 | a completed send is handed to the function for its status, and is freed in every case |
| EndToEnd.RoundTrip | tcp.c:1313-1329 | a message of any size the builder accepts is one frame and comes back as its payload, exactly unless the attribute keeps its header |
| EndToEnd.SerializerRoundTrip | tcp.c:1305-1329 | a serializer that copies fills all of the buffer without a builder, and all but its last cb bytes with one; so the message is whole whatever the memory held if and only if there is no builder or no header |
| EndToEnd.ManyFrames | tcp.c:1313-1329 | the bytes of whole messages divide into exactly those messages |
| EndToEnd.ArrivedFrames | tcp.c:280-343 | whatever part of them has arrived is, whole, the first of them, and has no bad header |
| EndToEnd.WriteReachesWire | tcp.c:1298-1337 | some run of one tcp_write on a link at rest adds to the wire exactly the header that the builder writes, if there is one, and then the user data, and comes to rest again |
| EndToEnd.EveryMessageCanArrive | tcp.c:105-346 | for every list of messages that can be sent there is a run whose wire means exactly these messages |
| EndToEnd.WireOfAppended | tcp.c:131-170 | in every run in which no byte went out behind a packet that was cut short, the wire is a beginning of the appended packets that were not skipped, laid out one behind the other |
| EndToEnd.DeliveredInOrder | tcp.c:105-346 | for any writers and interleaving, any beginning of the wire and any buffer size, what must be delivered is the first of what was appended and not skipped, in lock order, each in its shape; with the attribute clear these are the payloads |
| EndToEnd.MessagesInOrder | tcp.c:105-346 | so a link that received them in whatever segments has handed over the first of the payloads appended |
| EndToEnd.FramesInOrder | tcp.c:105-346 | the same with the attribute set, each frame in the shape that Reassembly.WhatIsHanded describes |
| EndToEnd.BytesInOrder | tcp.c:267-278 | without a header the bytes handed over are the first bytes of the messages expected, joined one behind the other, and all of them when the sender is at rest and all has arrived |
| EndToEnd.BytesAreRaw | tcp.c:1298-1311 | without a builder, or with an empty header, what goes out for a list of messages is their bytes and nothing else |
| EndToEnd.NoBadHeader | tcp.c:287-295 | such a receiver never meets a bad header |
| EndToEnd.WholeWireDelivers | tcp.c:105-346 | the wire of a sender at rest that has cut no packet short means exactly all that was appended and not skipped, with no remainder |
| EndToEnd.EveryRunDelivers | tcp.c:105-346 | every run without new requests ends, and where it cannot go on, with the link open and no packet cut short, its wire means all that was appended and not skipped |
| EndToEnd.CanDeliverEverything | tcp.c:105-346 | from every state of an open link that is not about to be closed, with no packet cut short, some run brings the wire to mean all that was appended |
| EndToEnd.EverythingArrives | tcp.c:105-346 | when the sender is at rest and all bytes have arrived, every payload appended and not skipped has been handed over |
| EndToEnd.Transfer | tcp.c:105-346 | a whole run of both ends: the payloads handed over are the first of those expected; when the receiver's calls go well it takes all that has arrived and stays open, and with the wire of a sender at rest every expected payload has been handed over |
| TornSend.FailureEnds | tcp.c:843-849 | after a send that failed and left the link alive, however much of it had gone out, the link is open and at rest; the packet counts as skipped if nothing of it is on the wire, as cut short if a part is |
| TornSend.TornSendBreaksOrder | tcp.c:843-849 | for all lawful callbacks with a header, and every size they accept, there is a run with one torn send after which the receiver is handed something else than what was appended |
| TornSend.CleanFailureKeepsOrder | tcp.c:843-849 | a run with a failed send of which all or nothing had gone out: the receiver is handed exactly the messages that went out, the next one included |
| AcceptMachine.PoolConserved | tcp.c:502-651 | in every interleaving of tcp_listen, handlers and ending requests, while the listener is open every request put up is outstanding, is being replaced by a thread, or has leaked |
| AcceptMachine.PoolColumn | tcp.c:502-651 | each operation that leaves the listener open makes a request outstanding, or leaks one, exactly when tcp_listen puts one up or a thread stops owing one |
| AcceptMachine.ObjectsAccounted | tcp.c:523-541 | every object ever allocated is in exactly one of: outstanding request, one thread's hands, accepted, closed, stray |
| AcceptMachine.CallsAreBounded | tcp.c:518-540 | every operation brings its thread closer to the end of its call, in every interleaving, and tcp_syn takes at most 151 turns |
| AcceptPool.OneTurnDecides | tcp.c:518-543 | exactly one of the first 151 turns decides: the first that does not merely fail to post, or else the last |
| AcceptPool.Listener.Turn | tcp.c:523-538 | one turn puts a request up, or closes its object again and goes on to the next turn or to the end |
| AcceptPool.Listener.Syn | tcp.c:502-544 | one new request, or every object closed again; the listener is closed if and only if the turns ran out or no object could be made |
| AcceptPool.Listener.DispatchIoSyn | tcp.c:610-651 | the accepted object is open and the user's, or closed when it cannot be set up, or left open as it was when the listener is gone; the request is replaced; the listener is closed if and only if tcp_syn failed; one has leaked if and only if the fresh object vanished |
| AcceptPool.Listener.ShutdownSyn | tcp.c:914-926 | the same for an accept that failed, but that the listener stays open, and the request has leaked, when the packet cannot be allocated; the failed object is closed in every case |
| AcceptPool.Listener.HandleConnection | tcp.c:856-883 | from every state with an outstanding request: a connection that arrives on an open listener belongs to the user and is open, or is closed when it cannot be set up; the request is replaced, or the listener closed |
| AcceptPool.Listener.HandleFailure | tcp.c:856-926 | an outstanding request that fails has its object closed in every case, and is replaced, or the listener is closed, or it has leaked |
| AcceptPool.Listener.Listen | tcp.c:1192-1208 | tcp_syn is called until it fails or has succeeded max(1, block) times, five for zero; the requests put up, outstanding and leaked are counted exactly from the outcomes of the calls made, and the listener is closed if and only if one gave up |
| AcceptPool.LeftWithoutRequests | tcp.c:914-926 | a run in which an open listener is left without any outstanding request |
| AcceptPool.ClosedListenerDrains | tcp.c:914-926 | a run in which a listener is closed, its request fails, and nothing of it is left open |

## Left out

- EndToEnd.DeliveredInOrder: assumes that no byte has gone out behind a packet that was cut short, because the link goes on sending behind it (tcp.c:843-849); TornSend.TornSendBreaksOrder shows that the payloads then need not be in order.
- SendProgram.Link.AwaitLock: speaks of the holder's operations only, because which of several waiters enters next is the scheduler's choice, and the source relies on no order between them.
- SendProgram.Link.Others: its body takes no step, because its contract is all a caller may use; SendProgram.OthersAreElsewhere shows that every step of the others keeps it.
- AcceptPool.Listener.Syn: says what the call does when no other thread moves meanwhile, as the other methods of the listener do; AcceptMachine.PoolConserved and AcceptMachine.ObjectsAccounted are about all interleavings.
- ControlBlock.RecvPacket.Free: records that the packet is gone; the release of its memory by page style is not modelled.
- The lists and counters of the send side are values of a state record: links between list nodes and memory addresses are not modelled.
- The 32-bit width of sizes: with at most 50 MiB of user data plus a header no longer than the buffer no sum comes near the limit.
- Winsock, completion ports and the thread loop of io.c: arbitrary outcomes, one completion for each post.
- Partial sends that complete with success: a successful completion is taken to have carried the whole packet.
- The object table: references are granted until objclos, refused while unloading, and either in between.
- A parser that looks beyond the header, a parser or callback that is not set, callbacks that change the link, and a serializer that writes beyond the space for the user data.
- Changing the template or the attributes in the middle of a stream, and tcp_settst_r.
- The packets of connect and accept requests, and the first receive packet of an accepted link.
- The page styles of allocate_packet other than those of the receive and send packets.
- Socket options, addresses, user contexts, pipe events, logging, UDP, ARP and start-up: thin wrappers or separate protocols with no property across operations.
