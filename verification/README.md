# A verified model of thespis_remote

`thespis_remote` lets actors in different processes call each other over one byte stream per pair of
processes. This project models its three working parts and proves what they promise together:

- **The framed byte channel.** Messages (`ThesWF`) are built in place in a growable buffer; an `Encoder`
  writes them through a transport that may take any number of bytes at every poll, and either of two
  resumable parsers, `DecoderNoHeap` and `Decoder`, gets them back. The transport is an adversary: every
  poll it decides freely whether it is pending, fails, or moves some bytes.
- **The peer.** One actor per connection handles its mailbox one message at a time. Every handler is a
  method of the class `PeerActor.Peer`, proved to do exactly what a function of `PeerSpec` says; the
  theorems are about those functions, over every sequence of messages and every answer of the
  surroundings (whether the sink fails, whether a task can be spawned, whether a payload can be read).
- **Relays and back pressure.** Any number of peers, linked in pairs by first-in-first-out wires, with
  relay tasks that pass calls on from one connection to the next; and a slot counter shared by several
  connections, with its queue of wakers.

| file | part |
|---|---|
| `Wrappers`, `LittleEndian`, `WireFormat` | options and results, integers as bytes, frames as values |
| `ThesWF`, `Messages` | the message buffer, and the code that builds requests, replies and error replies in it |
| `Framing` | the simple splitter, what one poll may do, runs of a decoder, the whole channel |
| `Transport`, `Encoder`, `DecoderNoHeap`, `Decoder` | the transport and the three state machines on top of it |
| `PeerTypes`, `PeerSpec`, `Peer` | data, one function per handler, the actor class |
| `Reader`, `Connection` | the task that hands what comes off the wire to the peer; that task, the gate and the peer together |
| `PeerShape`, `PeerProps`, `Accounts`, `Node` | what one message changes; runs of one peer; reply accounting, timers |
| `Outcomes` | what one message comes to, case by case |
| `BackPressure`, `Gate`, `Slots` | the slot counter and its wakers; many connections behind one counter; what becomes of slots |
| `ForeignIds` | frames under connection ids that users choose |
| `Network`, `Relay` | many peers and relays in every interleaving; chains of relays of any depth |

How the levels meet: each decoder's `PollNext` and the encoder's `PollFlush` promise a `DecodeStep` or a
`FlushStep`, and `Framing` reasons about all sequences of such steps. `ChannelSafety` is what lets the
network model treat a wire as a list of frames read in order; when a transport fails, `CutFrameStaysOut`
adds that the frame cut off never arrives, provided nothing follows it, and in the network a sink that
failed goes on failing. The reader's `ReaderDelivers` ties the messages a peer gets to the bytes of its
stream. Every handler of `PeerActor.Peer` equates the abstract state with a function of
`PeerSpec`, keeps the invariant of all runs, and says what its caller can rely on;
`PeerShape.HandleEffects` condenses those functions into what the network, accounting and gate proofs need.

Several ghost records make the statements possible: a peer's `calls` lists every call handled while open
(the frame, who made it, what its receiver was told), `wire` every frame the sink took, `admitted` the
connection ids of the incoming calls taken on, `lost` those whose reply could not be sent any more, and
`made` what the handlers of a process answered.

## Where the code differs from its documentation

The model follows the code.

- The length field counts the header too (`src/thes_wf.rs:164-186`); its description speaks of the
  payload (`src/thes_wf.rs:38`).
- The documentation of the peer promises to close on any sign of a corrupt stream (`src/peer.rs:131-135`).
  Handling an error of the stream only adds an event, as the error names no call
  (`PeerProps.StreamErrorIsAnEvent`). Whether the connection then ends depends on the next answer of the
  `Decoder`, which the reader asks for once the error has passed the gate (`PeerReader.FaultCloses`): after a
  transport error the stream ends, the reader reports that, and the peer closes; after an oversize error
  the next poll panics on the lost transport (`src/thes_wf/decoder.rs:133-149`,
  `src/thes_wf/decoder.rs:177`), nothing is reported, and the peer stays open. At a gate that never opens
  again the error waits for ever, and the end of the stream behind it
  (`GatedConnection.FaultHeldForEver`). `DecoderNoHeap` instead goes on and takes the body of the rejected message for frames
  (`Framing.AfterOversize`). `PeerProps.FatalErrorCloses` says exactly which errors of requests close.
- Only a handled `CallResponse` frees a slot; whatever else a call ends with keeps it
  (`SlotAccounts.SlotsComeBack`). Once as many calls as there are slots have ended so, the gate never lets
  another message pass (`SlotAccounts.GateShutsForEver`).
- A context that gives up while it holds the lock and sleeps leaves its waker behind; one that is still
  queued on the lock does not. This can happen when a connection closes whose reader waits at a gate shared
  with others (`src/peer.rs:404`, `src/peer/close_connection.rs:91`). The next context to get the lock then
  sleeps beside slots that become free, unless the waker first in the queue happens to be its own
  (`BackPressureSlots.CancelledWaitStalls`). Without that, any number of contexts may wait.
- Users may send raw frames under ids of their own (`src/peer.rs:666-674`). Under an id that a call of the
  same peer gets, the reply is taken for the reply to that call (`ForeignIds.ForeignReplyIsMistaken`,
  `ForeignIds.ForeignAnswerIsUntraced`); under any other id it does no harm (`Network.Correlation`).
- After a failed flush the encoder drops the message and would go on with the next one, asking itself
  whether it may (`src/thes_wf/encoder.rs:93-98`). It may exactly when no byte of the message was written
  (`Framing.SafeAfterCut`).

## Model

| member | source | states |
|---|---|---|
| `LittleEndian.U64RoundTrip` | src/thes_wf.rs:108-154 | every 64-bit header value written little-endian reads back as itself |
| `LittleEndian.EncodeDecode` | src/thes_wf.rs:126-169 | the bytes of a header field are determined by the value read from them |
| `WireFormat.EncodeIsCoherent` | src/thes_wf.rs:126-186 | the bytes of a frame have a correct length field and show its sid, cid and payload again |
| `WireFormat.CoherentIsEncode` | src/thes_wf.rs:126-169 | every byte string with a correct length field is the encoding of the frame it shows, so bytes and frames are in bijection |
| `ThesWireFormat.ThesWF.WithCapacity` | src/thes_wf.rs:173-186 | a new message has a length field equal to its byte count, null ids and no payload |
| `ThesWireFormat.ThesWF.Default` | src/thes_wf.rs:219-229 | the same, although it goes through `write` on a buffer without a header |
| `ThesWireFormat.ThesWF.TryFrom` | src/thes_wf.rs:238-250 | refuses exactly the vectors too short for a header; coherent bytes become the message they encode |
| `ThesWireFormat.ThesWF.SetLen` | src/thes_wf.rs:108-112 | the length field reads back as written and nothing else of the message changes |
| `ThesWireFormat.ThesWF.SetSid` | src/thes_wf.rs:134-138 | changes that id and neither the length field, the other id nor the payload, whatever the length field says |
| `ThesWireFormat.ThesWF.SetCid` | src/thes_wf.rs:150-154 | changes that id and neither the length field, the other id nor the payload, whatever the length field says |
| `ThesWireFormat.ThesWF.Write` | src/thes_wf.rs:193-204 | appends to the payload wherever the cursor stood, keeps the ids, adds to the length field; so a field equal to the byte count stays so |
| `ThesWireFormat.ThesWF.Len` | src/thes_wf.rs:166-169 | reads the length field, which for a message built or decoded here is its number of bytes, header included |
| `ThesWireFormat.ThesWF.Sid` | src/thes_wf.rs:126-131 | reads the sid the setters and decoders established |
| `ThesWireFormat.ThesWF.Cid` | src/thes_wf.rs:144-147 | reads the cid |
| `ThesWireFormat.ThesWF.Msg` | src/thes_wf.rs:159-162 | reads the payload, all bytes written and no header byte |
| `Messages.WriteAll` | src/service_map_macro.rs:396-402 | after any sequence of writes the payload is the concatenation of the buffers, and the message still coherent |
| `Messages.BuildWf` | src/service_map_macro.rs:579-604 | a request carries exactly its sid, cid and serialized message, or a serialization error names the service |
| `Messages.BuildCall` | src/service_map_macro.rs:609-636 | a call carries its sid and serialized message and leaves the cid to the peer |
| `Messages.BuildError` | src/peer.rs:649-659 | an error reply has the null sid, the cid of the call and the serialized error |
| `Messages.ServeCall` | src/service_map_macro.rs:363-407 | a served call ends with a reply of full sid and the cid of the request carrying the serialized answer, or with an error naming the request |
| `Messages.MakeCall` | src/relay_map.rs:123-196 | a relay task ends with the received reply in its own buffer, only the cid put back; with an error frame of null sid for an error; and with a lost relay naming the request when the relay is gone, refused the call, or dropped it |
| `ThesWfEncoder.Encoder.StartSend` | src/thes_wf/encoder.rs:42-52 | an idle encoder holds exactly the new message |
| `ThesWfEncoder.Encoder.PollFlush` | src/thes_wf/encoder.rs:55-102 | however little the transport takes, what was written followed by what is still held is what was held; ready means nothing is held, pending that the transport was; an error drops a part that was not yet written |
| `ThesWfEncoder.Encoder.PollReady` | src/thes_wf/encoder.rs:36-39 | ready only when the previous message went out completely, without losing or repeating a byte |
| `ThesWfDecoderNoHeap.DecoderNoHeap.PollNext` | src/thes_wf/decoder_noheap.rs:47-178 | every poll is a step of the splitter on held and newly read bytes, whatever the transport delivers; it waits exactly when the transport does, and never returns exactly when a read met the end of the stream; a failing read closes it exactly while fewer than the eight bytes of the length were read, and panics exactly after that |
| `ThesWfDecoderNoHeap.DecoderNoHeap.ReadLength` | src/thes_wf/decoder_noheap.rs:67-96 | the first phase keeps every byte read, suspended or not, and closes the decoder when a read fails |
| `ThesWfDecoderNoHeap.DecoderNoHeap.StartBody` | src/thes_wf/decoder_noheap.rs:101-137 | exchanging the buffer keeps the length field; longer or shorter lengths than allowed end the poll |
| `ThesWfDecoderNoHeap.DecoderNoHeap.ReadBody` | src/thes_wf/decoder_noheap.rs:142-174 | an item is a legal frame made of exactly the bytes read since the last one |
| `ThesWfDecoder.ReadExact.Poll` | src/thes_wf/decoder.rs:160-166 | an exact read is done exactly when its buffer is full, waits exactly when the transport does, keeping all it read, and ends early on an empty read or an error of that kind |
| `ThesWfDecoder.Decoder.PollNext` | src/thes_wf/decoder.rs:64-189 | every poll is a step of the same splitter; it waits exactly when the transport does, reports the end exactly on an empty read or an error of that kind, and then for ever; an oversize error loses the transport |
| `ThesWfDecoder.Decoder.PollMsg` | src/thes_wf/decoder.rs:76-106 | the second read yields a legal frame made of the bytes of both reads |
| `ThesWfDecoder.Decoder.PollLen` | src/thes_wf/decoder.rs:111-169 | the first read hands its eight bytes on to the second, or ends the poll |
| `Framing.LegalIsCoherent` | src/thes_wf/decoder.rs:135-149 | the frames a decoder accepts are exactly the coherent messages within the size limit |
| `Framing.SplitFlatten` | src/thes_wf/decoder_noheap.rs:101-171 | splitting undoes concatenation: any legal frames in a row come back, whatever follows |
| `Framing.SplitKeepsBytes` | src/thes_wf/decoder_noheap.rs:101-171 | splitting loses no byte |
| `Framing.SplitExtends` | src/thes_wf/decoder_noheap.rs:71-84 | later bytes never change a frame already split off, and splitting can resume at the rest |
| `Framing.PollKeepsAgreement` | src/thes_wf/decoder_noheap.rs:47-178 | one more poll keeps decoder and splitter in agreement |
| `Framing.RunIsSplit` | src/thes_wf/decoder_noheap.rs:47-178 | chunking independence: any run of polls yields the frames the splitter finds in the bytes read, and stops as it stops |
| `Framing.DecodersAgree` | src/thes_wf/decoder.rs:64-189 | two decoders that took the same bytes, in whatever pieces, have yielded the same frames; one that took fewer, a prefix |
| `Framing.DeliversExactlyTheFrames` | src/thes_wf/decoder.rs:86-95 | on frames followed by an unfinished one, also at the end of the stream, exactly the whole frames are delivered |
| `Framing.OversizeStop` | src/thes_wf/decoder.rs:135-149 | the oversize error comes exactly when the frames before it were delivered and eight bytes of it were read |
| `Framing.AfterOversize` | src/thes_wf/decoder_noheap.rs:107-117 | after an oversize error the heapless decoder yields what the splitter finds behind the length field of the rejected message |
| `Framing.RejectedBodyIsParsed` | src/thes_wf/decoder_noheap.rs:107-117 | so frames inside a rejected message are delivered as if they had been sent |
| `Framing.ChannelSafety` | src/thes_wf/encoder.rs:42-102 | in every run, decoded frames, held bytes, bytes in transit and unsent bytes make up exactly what was sent; decoded is a prefix of sent, all of it once nothing is on the way |
| `Framing.CutFrameStaysOut` | src/thes_wf/encoder.rs:72-98 | a message cut off by a failed flush never arrives if nothing is sent after it; only earlier ones do |
| `Framing.SafeAfterCut` | src/thes_wf/encoder.rs:72-98 | after a failed flush every legal message sent next is understood if and only if no byte of the message cut off was written |
| `Framing.MessagesArriveIntact` | src/thes_wf/decoder_noheap.rs:163-171 | messages arrive in order with the sid, cid and payload they were sent with |
| `BackPressureSlots.BackPressure.Add` | src/peer/backpressure.rs:44-58 | adds the slots and wakes the first waker exactly when the count becomes positive |
| `BackPressureSlots.BackPressure.Remove` | src/peer/backpressure.rs:61-66 | takes the slots and wakes nobody |
| `BackPressureSlots.BackPressure.Poll` | src/peer/backpressure.rs:97-126 | ready exactly while a slot is free; otherwise the waker is queued last |
| `BackPressureSlots.WakeDiscipline` | src/peer/backpressure.rs:75-126 | any number of contexts may wait through the lock: without cancelled waits and needless polls at most one waker is queued, and nobody sleeps while a slot is free |
| `BackPressureSlots.StallCondition` | src/peer/backpressure.rs:44-58 | in any use, slots that become free leave the waiting context asleep if and only if a waker that is not its own is first in the queue |
| `BackPressureSlots.AddWakes` | src/peer/backpressure.rs:44-58 | the first waker in the queue is woken if and only if the count becomes positive, nobody else ever; wakers stay queued beside a free slot exactly when two or more were queued |
| `BackPressureSlots.AllAreWoken` | src/peer/backpressure.rs:97-126 | when more than one slot becomes free all sleepers are woken in turn, each by the poll of the one before; a poll that finds one slot wakes nobody, one that finds none is queued last |
| `BackPressureSlots.CancelledWaitStalls` | src/peer/backpressure.rs:97-126 | after any use, when a sleeping lock holder gives up and another context waits, slots that become free leave that one asleep if and only if a waker not its own is first in the queue; after orderly use that is so for every other context |
| `Gate.MoveKeepsInv` | src/peer.rs:506-523 | letting a message pass, handling it, or handling anything else keeps slots and load in balance |
| `Gate.BackpressureBound` | src/peer/incoming.rs:235-238 | slot conservation over every run, and the bound: with N connections and room for C passed messages each, calls without a handled response never exceed slots + N * C - 1 |
| `Gate.FailedCallKeepsSlot` | src/peer/incoming.rs:235-278 | every call taken on takes a slot; for a call to a service that is not here, has no handler, cannot be read, takes no calls or cannot be spawned no task is there to give it back |
| `SlotAccounts.StepMoves` | src/peer/call_response.rs:47-52 | in every step a call taken on stays pending, is answered, or ends unanswered (not startable, failed, dropped, or ended with the connection), and only a handled answer gives a slot back |
| `SlotAccounts.SlotsComeBack` | src/peer/call_response.rs:47-52 | in every run the slots missing are the calls pending and those ended otherwise; with nothing pending all are back if and only if every call taken on ended with a handled answer |
| `SlotAccounts.GateShutsForEver` | src/peer.rs:508-515 | once as many calls as there are slots ended unanswered, no later event frees a slot and no message passes any more |
| `PeerActor.Peer.constructor` | src/peer.rs:415-434 | a new peer is open, has no outstanding call, and starts its connection ids at one |
| `PeerActor.Peer.RegisterServices` | src/peer.rs:548-562 | all services of the map lead to it and no other registration changes |
| `PeerActor.Peer.SendMsg` | src/peer.rs:567-594 | puts the frame on the wire or reports why not, changing nothing else |
| `PeerActor.Peer.SendErr` | src/peer.rs:605-640 | without a sink nothing goes out; otherwise the error reply goes out before any close, which happens even when sending failed |
| `PeerActor.Peer.HandleCloseConnection` | src/peer/close_connection.rs:38-100 | the whole new state of a close, second closes included: nothing is left of the connection and no receiver waits |
| `PeerActor.Peer.HandleRequestError` | src/peer/request_error.rs:60-173 | the decision table from error to event, error reply and close, missing arms included |
| `PeerActor.Peer.NewCid` | src/peer/call.rs:76-85 | the counter wraps in 64 bits and a zero is skipped |
| `PeerActor.Peer.HandleCall` | src/peer/call.rs:55-126 | the whole new state; the receiver handed out waits under the id of the frame that just went out, an id that within a cycle no other call waits under; an error leaves nothing waiting |
| `PeerActor.Peer.HandleSend` | src/peer.rs:668-673 | puts the frame out as it is |
| `PeerActor.Peer.HandleCallResponse` | src/peer/call_response.rs:41-55 | puts the reply out and frees a slot whether or not that succeeded |
| `PeerActor.Peer.HandleTimeout` | src/peer/timeout.rs:27-41 | afterwards nothing waits under the cid; just the receiver that did is told of the timeout; a stale timeout changes nothing |
| `PeerActor.Peer.RemoteConnErr` | src/peer/incoming.rs:106-150 | a readable error goes to the call waiting under its cid, else to observers |
| `PeerActor.Peer.IncomingSend` | src/peer/incoming.rs:156-221 | starts the task of the send, or reports an error that names no call |
| `PeerActor.Peer.IncomingCall` | src/peer/incoming.rs:225-279 | takes a slot first, then starts the task of the call or reports an error naming it |
| `PeerActor.Peer.HandleIncoming` | src/peer/incoming.rs:31-96 | the dispatch by kind of frame; a reply reaches just the receiver waiting under its cid; nothing at all happens once closed |
| `PeerShape.HandleEffects` | src/peer/incoming.rs:63-95 | every handled message has one of few shapes: at most one frame goes out, at most one task starts, at most one receiver is told something or all are dropped, slots change by admitted calls and responses only |
| `PeerShape.StartSendShape` | src/peer/incoming.rs:196-201 | no error of a service map for a send reaches the unreachable arm, and none names a call |
| `PeerShape.StartCallShape` | src/relay_map.rs:91-104 | a call starts a task on that very frame, or fails with an error naming it that has an arm |
| `PeerProps.HandleKeepsInv` | src/peer/call.rs:123-125 | every message keeps the table exact: a sender is kept for just the calls whose receivers wait, under their cid; cids follow the count; closed means everything is gone |
| `PeerProps.CidArithmetic` | src/peer/call.rs:76-87 | in every run call k carries (k mod 2^64-1) + 1, never zero, and only an entry at least 2^64-1 calls old is ever displaced |
| `PeerProps.ExactlyOnce` | src/peer/incoming.rs:73-93 | receivers issued are those outstanding, answered, failed, timed out and cancelled; what one was told never changes; within a cycle only closing cancels |
| `PeerProps.ClosedIsAbsorbing` | src/peer/close_connection.rs:42-99 | after a close no later messages bring back sink, address, service or outstanding call, put out a frame, take on a call or accept one |
| `PeerProps.FatalErrorCloses` | src/peer/request_error.rs:69-116 | an error closes if and only if it names a call and is of the wire or of spawning, after its reply went out, and then completely |
| `PeerProps.StreamErrorIsAnEvent` | src/peer/incoming.rs:38-53 | handling an error of the incoming stream adds an event and changes nothing else |
| `PeerProps.CloseShuts` | src/peer/close_connection.rs:38-100 | a run in which a close is handled leaves nothing of the connection, whatever came before and after |
| `PeerProps.CallOutcome` | src/peer/call.rs:93-125 | who calls gets a receiver that waits under a new id, or an error and nothing that waits |
| `PeerProps.ResolveOutcome` | src/peer/timeout.rs:33-38 | telling the receiver under a cid tells just that one, and the cid is free again |
| `PeerOutcomes.CallToUnknownService` | src/peer/incoming.rs:247-259 | a call to a service that is not registered is told just that, under its cid, and the peer stays open |
| `PeerOutcomes.CallWithoutHandler` | src/service_map_macro.rs:513-524 | a call to a service without a handler is told an internal error |
| `PeerOutcomes.CallUnreadable` | src/service_map_macro.rs:349-353 | a call that cannot be deserialized is told just that |
| `PeerOutcomes.CallToPubSub` | src/pub_sub.rs:194-199 | a call to published messages is told that there are no such calls |
| `PeerOutcomes.CallUnspawned` | src/peer/incoming.rs:273-278 | when no task can be spawned the call is told an internal error, and then the connection ends |
| `PeerOutcomes.CallServed` | src/peer/incoming.rs:262-273 | a call to a handler that can read it starts exactly the task for it, and nothing goes out yet |
| `PeerOutcomes.CallRelayed` | src/relay_map.rs:91-104 | a call to a relayed service starts the task that asks the relay its map names, or the one its closure picks |
| `PeerOutcomes.SendOutcome` | src/peer/incoming.rs:156-221 | a frame without a cid goes to its handler, its relay or all subscribers if and only if it can be delivered; otherwise exactly the named error is an event |
| `PeerOutcomes.TaskErrorOutcome` | src/peer/request_error.rs:60-173 | for every error of a task: the error the other end is told under the cid, and whether the connection ends |
| `PeerOutcomes.CloseEvents` | src/peer/close_connection.rs:46-70 | observers learn who closed, and then of an error of the sink, if there still was one |
| `PeerOutcomes.CloseTasks` | src/peer/close_connection.rs:73-91 | without a grace period all tasks end and the replies of their calls are lost; with one neither |
| `PeerOutcomes.ErrorReplyOutcome` | src/peer/incoming.rs:106-150 | an error reply decides just the call waiting under its cid, else observers are told; an unreadable one is an event and decides nothing |
| `PeerOutcomes.CallReplyOutcome` | src/peer/incoming.rs:69-94 | a reply decides just the call waiting under its cid; a late one changes nothing |
| `PeerOutcomes.ForwardOutcome` | src/peer.rs:567-594 | a frame to send goes out as it is, or the sender learns that the connection is closed or of the error of the sink with the ids of the frame |
| `PeerOutcomes.CallErrors` | src/peer/call.rs:65-120 | when a call fails: on a closed connection untouched, at the sink with the ids of the frame sent, at the timer after the frame went out |
| `PeerReader.NextAnswer` | src/thes_wf/decoder.rs:64-189 | every poll extends the record of what the splitter finds in the stream; after a transport error comes the end of the stream, after an oversize error a panic |
| `PeerReader.ListenIncoming` | src/peer.rs:492-539 | a poll of the task goes on until the stream is polled and pending, the gate is polled and has no slot, or the task ends; what it sent and the one message at the gate are exactly the messages of the stream's answers, in order, the end of the stream as a close; at a shut gate it does nothing |
| `PeerReader.ReaderDelivers` | src/peer.rs:506-523 | the frames the peer is sent are the views of exactly the frames the splitter finds in the bytes read from the stream, in order, and the size in an oversize error is the one it stops at |
| `PeerReader.FaultCloses` | src/peer.rs:506-529 | a fault of the stream ends the connection if and only if it is a transport error whose message is not held at the gate; observers learn of the fault with its size and limit, and then who closed; held at the gate it does nothing |
| `GatedConnection.HeldBack` | src/peer.rs:508-515 | while no slot is free and none can become free, nothing that happens moves a message waiting at the gate |
| `GatedConnection.FaultHeldForEver` | src/peer.rs:506-529 | once as many calls as there are slots ended unanswered, a fault at the gate and the end of the stream behind it never get to the peer |
| `Accounts.HandleBalances` | src/peer/request_error.rs:69-170 | handling a message settles one call for each it was about and takes on the one it brought, for every cid, and never reaches a missing arm |
| `Accounts.CloseSettles` | src/peer/close_connection.rs:73-91 | closing turns running calls into lost ones and forgets none |
| `PeerNode.ReplyAccounting` | src/peer.rs:452-485 | in every run and for every cid, calls taken on equal replies on the wire, calls being worked on, results queued and replies lost; so replies never outnumber calls, and no unreachable arm is reached |
| `PeerNode.SendsAreSilent` | src/peer/incoming.rs:156-221 | no incoming send leads to a frame, neither at once nor when its task ends, whatever state the peer is in by then |
| `PeerNode.TimersDrain` | src/peer/call.rs:98-123 | every outstanding call has a timer running or a timeout queued, and handling those empties the table |
| `PeerNode.ExpireRemoves` | src/peer/timeout.rs:33-38 | timeouts remove their own entries only; stale ones change nothing |
| `Network.Acted` | src/relay_map.rs:134-166 | one step concerns the peer that acts, and the relay it asks, only; links never change |
| `Network.RelayedReplyTraced` | src/relay_map.rs:171-196 | what a relay task replies leads back to where it was made: an answer, an error, or the timeout of its own call |
| `Network.ActKeepsInv` | src/peer/call.rs:76-125 | every step of every peer keeps requests, tasks, queued replies, wires and told receivers consistent with each other across connections |
| `Network.Correlation` | src/peer/incoming.rs:69-126 | in every run a receiver resolves with a frame or remote error only if the other end, having taken on that call, put it on the wire for it; both lead back to where they were made for this request |
| `PeerShape.FailingSendsNothing` | src/peer.rs:567-640 | while the sink fails, no message handled puts a frame out |
| `Network.CallsAreRouted` | src/relay_map.rs:91-104 | in every run a call made by a relay task is at a relay that the services registered with the task's peer name for that service, and so are all relay tasks still to ask |
| `Network.AsksNext` | src/relay_map.rs:129-136 | a relay task calls its relay with the very request it works on and waits |
| `Network.ForwardsNext` | src/relay_map.rs:49-83 | a relay task hands a send to its relay as it is |
| `Network.AnswersNext` | src/relay_map.rs:160-196 | what a relay task ends with once its call is answered, failed, timed out or dropped |
| `Network.FiresNext` | src/peer/call.rs:101-111 | a timer that runs out is a timeout of its own call; a relay task whose relay is gone says so |
| `Network.EndsNext` | src/peer.rs:460-474 | an answer is sent as a response that frees a slot, an error frame as it is, an error is reported, nothing is nothing |
| `Network.ReadsNext` | src/peer.rs:506-519 | frames are read in the order they were put on the wire, each once |
| `Network.TrailEnd` | src/relay_map.rs:116-197 | at the end of every trail the reply was made for a request of the same service and payload |
| `Network.AnswerTravels` | src/relay_map.rs:176-185 | an answer arrives with the payload a handler made for that request, through any number of relays |
| `Network.ErrorTravels` | src/relay_map.rs:190-195 | an error reads the same where it arrives as where it arose |
| `Network.TrailUpstream` | src/peer/call.rs:87 | going upstream from the end of a trail, cid by cid, leads exactly to its beginning |
| `Network.NoCrosstalk` | src/relay_map.rs:116-197 | two users' calls anywhere that are decided by replies, answers or errors, to the same request at the same peer are the same call, in every topology and interleaving |
| `ForeignIds.ForeignReplyIsMistaken` | src/peer.rs:666-674 | a frame sent under any id that a later call gets is a second request with that id, and a reply under it is taken for the reply to the call |
| `ForeignIds.ForeignAnswerIsUntraced` | src/peer.rs:666-674 | a run of two connected peers in which a call is told the answer the provider's handler made for such a frame |
| `Relays.ReplyGoesOut` | src/peer.rs:460-474 | the result of a task goes out as one reply under the cid of its request |
| `Relays.ReplyDecides` | src/peer/incoming.rs:69-126 | a reply decides the waiting call it names, whatever other calls there are |
| `Relays.RelayPassesOn` | src/relay_map.rs:171-196 | what a relay task makes of a decided call ends its own call the same way |
| `Relays.ChainTransparent` | src/relay_map.rs:123-196 | through any number of hops, with anything handled in between, service and payload reach the end unchanged and the consumer is told just how the task there ended, under its own cid |
| `Relays.CallerSeesValue` | src/service_map_macro.rs:707-730 | behind any number of relays the caller gets the value the service returned |
| `Relays.CallerSeesFailure` | src/service_map_macro.rs:734-769 | a dead handler, failed serialization or lost relay shows as that remote error |
| `Relays.CallerSeesTimeout` | src/service_map_macro.rs:745-762 | a timeout at the last relay shows as a timeout |
| `Relays.CallerSeesLostRelay` | src/relay_map.rs:134-167 | when the last relay's own call was refused or dropped the caller sees an internal error naming the last request |
| `Relays.CallerSeesError` | src/relay_map.rs:190-195 | an error told to the last relay reaches the caller as it is |
| `Relays.CallerSeesRefusal` | src/peer/request_error.rs:95-163 | behind any number of relays the caller learns why the end of the chain cannot start its call: unknown service, no calls, no handler, not readable |
| `Relays.RelayYields` | src/relay_map.rs:134-196 | for every way its call can be decided, what a relay task ends with |
| `Relays.ServedYields` | src/service_map_macro.rs:366-405 | a served call ends with a reply of full sid under its cid, a dead handler or a failed serialization, and with nothing else |
| `Relays.CloseTellsCallers` | src/service_map_macro.rs:676-702 | closing cancels every waiting call, which its caller sees as a closed connection, as it does a refused call |
| `Relays.OwnOutcomes` | src/service_map_macro.rs:707-762 | a call that times out is seen as a timeout, an unreadable reply as an error with the ids of call and reply |
| `Relays.NewChainIsUp` | src/peer.rs:368-435 | chains of new peers of every length satisfy what `ChainTransparent` asks for |

## Left out

- Sockets, executors, the nursery's and mailbox's own code, one-shot channels, timers and event channels:
  taken as a first-in-first-out mailbox, tasks that end at most once with one result, channels that
  resolve at most once, and an event log.
- CBOR: serialization of connection errors is any pair of functions; where reading back matters,
  `RoundTrips` is asked for. A value's serialization is any sequence of buffers.
- Service ids by hashing, random ids, downcasting, trait objects, the macro's code generation, Debug and
  Display, logging, and the texts inside errors. `DeserializeWireFormat` carries the wire error in place
  of its text.
- `PubSub` as a component: only its answers to calls and sends.
- What the closure of a relay map picks: any peer, at every call anew.
- `poll_close` of the encoder, a flush, and capacity hints of buffers.
- ThesWfDecoderNoHeap.DecoderNoHeap.PollNext: a poll that never returns is modelled as the answer `Spins`,
  for transports that go on reading empty once they have ended (src/thes_wf/decoder_noheap.rs:80-84).
- ThesWfDecoder.Decoder.PollNext: models a build with debug assertions, in which a length field below the
  header size panics; 32-bit truncation of lengths is not modelled.
- PeerActor.Peer.RegisterServices: asks for services not registered before, as the original asserts.
- BackPressureSlots.BackPressure.Poll: one atomic step, while in the original the load and the queueing of
  the waker are not one critical section; the wrap-around of the 64-bit slot counter is not modelled.
- BackPressureSlots.WakeDiscipline: the lock around the inner future lets contexts in one at a time, in any
  order; that it wakes one when it is free is the lock's own affair.
- PeerReader.ListenIncoming: with a `Decoder`, as connections over sockets have; the gate is polled without the
  lock around it; waiting for room in the mailbox is not modelled, nor what an executor does with a
  panicked task.
- PeerNode.ReplyAccounting: users do not send raw frames under the reserved service ids, which would count as
  replies.
- SlotAccounts.GateShutsForEver: for the calls of one connection, as is `GatedConnection.FaultHeldForEver`;
  `Gate.BackpressureBound` is about several.
- PeerActor.Peer.HandleCloseConnection: a grace period is modelled as tasks that may still end, or be
  dropped, after the close, which allows more than the original's bounded wait.
- Network.Correlation: for runs of at most `limit` calls per peer, `limit` below 2^64, after which connection
  ids repeat; users send raw frames only under ids that no call gets, as they must
  (`ForeignIds.ForeignReplyIsMistaken`), and make no calls to the reserved service ids. A sink that failed
  once goes on failing in the network (`Network.BrokenIsSilent`), while the original would write on behind
  a message cut off (src/thes_wf/encoder.rs:93-98), which is safe only as `Framing.SafeAfterCut` says.
- Relays.ChainTransparent: each peer's own messages in between are arbitrary, but the hops are taken one
  after another for the one call; interleavings of many calls are in `Network`.
- Everything under `examples/`, and user interfaces.
