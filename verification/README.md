# libcsp in Dafny

libcsp is the Cubesat Space Protocol stack, a small network stack in C for satellites. This project models its most
intricate parts and proves what they promise: the reliable transport (RDP), the framings and fragmentations (KISS, CAN
CFP 1 and 2, SFP, the packed header), the digests (CRC-32C, SHA-1, HMAC), the router with its connection table and
buffer pool, the routing table, and the bit-flip operator of the data-driven mutator built into this copy of the
library. Except in the mutator, mutation is switched off (`MUTATION == -1`).

`dafny verify dfyconfig.toml` checks the whole project. Code that changes state step by step is a class or a method
with loops, proved against functions; the properties are lemmas about those functions, and the main ones quantify over
every run, every interleaving or every input.

| files | what they hold |
|---|---|
| `Base` | an option type and two small functions |
| `SeqNum`, `RdpModel`, `RdpSystem` | wrapping numbers; one RDP connection as functions on a value; two endpoints joined by a network that loses, duplicates and reorders |
| `RdpClose`, `RdpOrder`, `RdpAcks`, `RdpHonest`, `RdpEffect`, `RdpRecover`, `RdpWindow` | what every step keeps, up to the safety theorems over whole runs |
| `RdpTrace`, `RdpOptions` | what was sent stays sent; both ends work with the options the SYN announced |
| `RdpHangup`, `RdpAnswers` | the closing handshake over runs; acknowledgements, repetitions and resets |
| `RdpConnect`, `RdpRounds`, `RdpProgress` | runs that exist: a connection can be made, carry any number of payloads, and deliver whatever was accepted |
| `RdpFair` | delivery under a fair schedule, whatever else happens |
| `RdpReopen`, `RdpShut`, `RdpSilence`, `RdpDecide`, `RdpCross` | exactly when a transmit window that stale acknowledgements have shut can open again, and runs that shut one or both |
| `RdpEndpoint` | the RDP routines as loops and as a class that changes the connection |
| `CspId`, `Kiss`, `CanPbuf`, `Can1`, `Can2`, `CanSound`, `CanInterface`, `CanList`, `Sfp`, `Formats` | encoders, stateful decoders, that the decoders invert the encoders, and where each byte lies |
| `CrcTable`, `CrcDivision`, `Crc32`, `CrcPacket`, `Sha1`, `Sha1Example`, `Hmac`, `PacketBuffer` | the fast forms, their definitions, and their use on packets |
| `ConnTable`, `Node`, `NodeBuffers`, `NodeDemux`, `NodeSend`, `NodeQueues`, `NodeCode` | connections, router, send path and buffers of one node |
| `Rtable`, `Mutator` | longest-prefix routing; the bit-flip operator |

Findings, each stated as a lemma and explained in its row below:

- Whatever RDP has accepted can still be delivered, whatever the network has lost (`AllCanBeDelivered`), and is delivered
  by as many fair rounds as there are payloads left (`FairDelivery`). A later payload may never be accepted:
  `ReopensExactly` says, for every option, exactly when the transmit window of a side can open again even if everything
  sent so far is lost. Without delayed acknowledgements a run exists for every window that shuts one window until the
  peer sends something (`ShutUntilAnswered`), and one that shuts both, after which neither opens whatever the users send
  or read, if everything sent so far is lost (`BothShutForGood`).
- RDP ordered delivery holds as long as no more than 65535 payloads a direction may be accepted; for every higher limit
  some run breaks it (`OrderedDelivery`, `OrderFailsBeyond`).
- An empty payload is numbered but never delivered, so nothing behind it is (`EmptyPayloadBlocks`).
- An in-sequence RST closes the connection unless the last number received was 0xFFFF (`ResetMissesTheWrap`); with that
  exception the closing handshake gives both slots back (`Hangup`, `HangupRun`).
- KISS sends packets its own receiver drops: the transmit limit leaves out the header (`DeliveredExactlyIfFits`).
- CFP 1 carries at most 2042 bytes, whatever the MTU (`Can1.DeliveredExactlyIfCarried`).
- CFP 2 counts the header against the MTU on receive, and losing eight fragments in a row goes unnoticed
  (`Can2.DeliveredExactlyIfCarried`, `EightLostSplices`); its exact loss behaviour is `LossExactly`.
- The clean-up of timed-out CAN packets takes out what it gives back if and only if no two neighbours of the list have
  timed out (`SweptExactly`).
- SFP receive is sound if and only if the total is below 2^32 less the bytes the longest fragment carries, plus one
  (`SoundExactly`): with buffers of 256 bytes, below 2^32 - 247.
- A send that needs more clones than there are free buffers uses a null pointer; `SendFailsExactly` says when, and
  `NeverFailsExactly` when no answer of the drivers can lead to it.
- Every successful bit flip turns over exactly `value` bits, whatever the item and the random positions, if and only if
  `AlwaysExact` holds of its parameters (`ExactIff`); with the range in the item that is state 0, state 1, or at most one
  bit (`ExactInItem`).

## Model

| member | source | states |
|---|---|---|
| SeqNum.BeforeIsLess | libcsp/src/csp_rdp.c:89-97 | comparing 16-bit numbers by sign is comparing the unwrapped numbers, as long as they are less than 2^15 apart |
| SeqNum.BetweenIsInRange | libcsp/src/csp_rdp.c:84-87 | the wrapped range test is the range test on unwrapped numbers within 2^16 of its start |
| SeqNum.BetweenFailsBelow | libcsp/src/csp_rdp.c:84-87 | a number below the range fails the wrapped test while the range does not reach round to it |
| RdpOrder.OrderedDelivery | libcsp/src/csp_rdp.c:512-820 | in every state of every run, in both directions, what was put on the connection's queue is a prefix of what the peer's send accepted, what was read is a prefix of that, and while open nothing queued is lost |
| RdpOrder.EmptyPayloadBlocks | libcsp/src/csp_rdp.c:740-742 | an accepted empty payload is never passed: no later payload is ever delivered |
| RdpRounds.OrderFailsBeyond | libcsp/src/csp_rdp.c:512-820 | for every limit above 65535, every window, all initial numbers, without delayed acknowledgements and with a receive queue longer than two windows and a place: some run from fresh slots delivers what is not a prefix of what was accepted, by 65536 rounds and a duplicate of the first segment |
| RdpRounds.Rounds | libcsp/src/csp_rdp.c:427-935 | a run that sends, delivers, reads, acknowledges and frees any number of payloads, one by one |
| RdpOrder.RxFlushOk | libcsp/src/csp_rdp.c:257-298 | draining the reorder queue delivers only the next payloads, in order |
| RdpOrder.DeliverOk | libcsp/src/csp_rdp.c:240-255 | a segment numbered one past the last delivery carries the next payload, and delivering it keeps the prefix |
| RdpClose.CloseSafety | libcsp/src/csp_rdp.c:957-989 | through the whole life of a slot, with any peer, any segments and any number of uses: a slot whose handle a user holds is open, only the user's close takes it away, and RDP_CLOSED is re-entered only after userspace, protocol and timeout have all closed this use |
| RdpHangup.Hangup | libcsp/src/csp_rdp.c:531-566 | after any run with both ends open and held and everything the closing side had accepted delivered: its close sends a reset that acknowledges in that very step; the arrival takes the peer out of OPEN if and only if its last number is not 0xFFFF, and then wakes its reader and is answered; the answer gives the slot of the closing side back (within the connection timeout, if a socket listens there), and the close of the peer's user gives back the other |
| RdpHangup.HangupRun | libcsp/src/csp_rdp.c:957-989 | the same as a run of four events, whatever the times: both slots are given back, with empty queues but for the wake-up of the reader |
| RdpHangup.SilentPeer | libcsp/src/csp_rdp.c:444-453 | after the close of an open connection in any run, a timer pass gives the slot back if and only if the connection timeout has passed since the close |
| RdpHangup.CloseTells | libcsp/src/csp_rdp.c:957-989 | closing an open connection sends one segment, a reset that acknowledges with snd_nxt and rcv_cur, and waits; nothing else changes |
| RdpHangup.PassGivesBack | libcsp/src/csp_rdp.c:427-453 | while a connection waits, a timer pass gives its slot back if and only if the connection timeout has passed and its user has closed it or never had it |
| RdpHangup.ResetAnswered | libcsp/src/csp_rdp.c:553-562 | a reset in sequence is answered with a reset that acknowledges, counts as closed by protocol and timeout, and wakes the reader |
| RdpHangup.AnswerGivesBack | libcsp/src/csp_rdp.c:544-551 | a reset with an acknowledgement ends the wait of the side that closed |
| RdpHangup.LastCloseGivesBack | libcsp/src/csp_rdp.c:976-988 | a close after the other two gives the slot back at once and sends nothing |
| RdpHangup.ResetTaken | libcsp/src/csp_rdp.c:553-562 | the reset is taken in sequence if and only if everything before it has been received, the reorder queue included, and the last number is not 0xFFFF |
| RdpWindow.WindowFit | libcsp/src/csp_rdp.c:413-419 | in every state of every run snd_una <= snd_nxt, snd_nxt is at most a window past what the peer delivered, and the peer would accept every number it lacks, although snd_una can step back |
| RdpWindow.Recoverability | libcsp/src/csp_rdp.c:427-510 | in every state of every run each payload accepted and not delivered is in the sender's retransmit queue or the receiver's reorder queue, so no ACK or EACK frees what is needed and the queue does not overflow |
| RdpWindow.HalfOpenUnreachable | libcsp/src/csp_rdp.c:620-663 | whatever reaches a connecting node is a SYN/ACK or a RST, so the half-open retry of connect is never taken |
| RdpProgress.NextGetsThrough | libcsp/src/csp_rdp.c:427-510 | after any run with both ends open and held by their users, even if all segments sent so far are lost, reads, one timer pass and one segment sent again deliver the next payload that was accepted |
| RdpProgress.AllCanBeDelivered | libcsp/src/csp_rdp.c:427-820 | from any such state a run of reads, timer passes and segments brings the receiver exactly what the sender accepted |
| RdpProgress.PassResends | libcsp/src/csp_rdp.c:478-489 | once its time has passed a payload still needed is sent again, with the current acknowledgement |
| RdpProgress.ArrivalDelivers | libcsp/src/csp_rdp.c:683-773 | the segment next in sequence passes both range tests and is delivered |
| RdpProgress.AckIsAcceptable | libcsp/src/csp_rdp.c:697-702 | an honest cumulative acknowledgement passes the range test although snd_una may be ahead of it |
| RdpReopen.ReopensDelayed | libcsp/src/csp_rdp.c:379-510 | with delayed acknowledgements and a receive queue longer than two windows: after any run with both ends open and held and no empty payload, even if all segments sent so far are lost, reads, timer passes and segments sent since make the window of either side open |
| RdpReopen.AckTaken | libcsp/src/csp_rdp.c:683-731 | an acknowledgement of everything under a number the receiver lacks passes both range tests and moves snd_una to snd_nxt |
| RdpRounds.CanShut | libcsp/src/csp_rdp.c:696-731 | without delayed acknowledgements, for every window some run ends with everything delivered and acknowledged, both retransmit queues empty, and the window shut by an old acknowledgement |
| RdpDecide.ReopensExactly | libcsp/src/csp_rdp.c:379-935 | for every option, after any run with both ends open and held and no empty payload, even if everything sent so far is lost: the window of a side can open again if and only if timer passes acknowledge (delayed acknowledgements and a receive queue longer than two windows), or it is open, or the side has a segment left that is not acknowledged, or its peer has one the side lacks; or, where users may send, one of the last three holds of the peer and it can have a payload accepted |
| RdpDecide.PeerSendReopens | libcsp/src/csp_rdp.c:885-935 | any payload the peer can have accepted opens the window of a side that has nothing left to send again |
| RdpSilence.RunStuck | libcsp/src/csp_rdp.c:427-935 | otherwise the window stays shut through every continuation of reads, sends, timer passes and segments sent since: the side sends nothing but extended acknowledgements and its peer nothing the side has not received |
| RdpCross.BothShutForGood | libcsp/src/csp_rdp.c:498-731 | without delayed acknowledgements, for every window, some run from fresh slots ends with everything delivered both ways, both retransmit queues empty and both windows shut by old acknowledgements; neither opens whatever the users send or read, if everything sent so far is lost |
| RdpCross.ShutUntilAnswered | libcsp/src/csp_rdp.c:498-731 | without delayed acknowledgements, for every window, some run shuts one window, which opens if the peer sends something, and not otherwise, if everything sent so far is lost |
| RdpFair.FairRoundDelivers | libcsp/src/csp_rdp.c:427-820 | at any point of any run, while both ends are open and held: a sender's timer pass that finds its queue due, the arrival of what it sent where there is room, and a receiver's pass with room for three deliver the next payload, whatever else happens and whatever the clocks say |
| RdpFair.FairDelivery | libcsp/src/csp_rdp.c:427-820 | as many such rounds as there are payloads accepted and not delivered deliver them all |
| RdpFair.ArrivesInTime | libcsp/src/csp_rdp.c:683-773 | the next segment is delivered whenever it arrives, as long as its acknowledgement is at most two windows old |
| RdpShut.OwnSegmentReopens | libcsp/src/csp_rdp.c:478-692 | a segment of its own, sent again, draws an acknowledgement that opens the window |
| RdpShut.PeerSegmentReopens | libcsp/src/csp_rdp.c:478-731 | a segment of the peer, sent again, brings one |
| RdpShut.DuplicateDrawsEack | libcsp/src/csp_rdp.c:683-692 | a segment received before draws an extended acknowledgement and changes nothing else after the timer pass |
| RdpOptions.OptionsAgree | libcsp/src/csp_rdp.c:586-612 | in every state of every run an end that is not closed works with the options of the side that connected |
| RdpTrace.RunSends | libcsp/src/csp_rdp.c:512-935 | along a run what a side has sent, accepted and delivered only grows, and what it has accepted grows by user sends alone |
| RdpConnect.CanConnect | libcsp/src/csp_rdp.c:574-728 | from any two fresh slots and any initial numbers a run of five steps opens the connection for both users |
| RdpAnswers.EackFreesHeld | libcsp/src/csp_rdp.c:336-377 | after an extended acknowledgement of all that waits at the receiver, the retransmit queue holds none of it and all the rest |
| RdpAnswers.GapResent | libcsp/src/csp_rdp.c:349-366 | an entry missing below a number the receiver has, out of quarantine, is sent again by a timer pass at the same time |
| RdpAnswers.GapQuarantined | libcsp/src/csp_rdp.c:349-366 | but once in half a packet timeout, however many such acknowledgements arrive |
| RdpAnswers.AckAfterCount | libcsp/src/csp_rdp.c:379-411 | with delayed acknowledgements and room for two windows, one is sent if and only if more segments than the count have come in since the last, or the time has passed |
| RdpAnswers.AckNotRepeated | libcsp/src/csp_rdp.c:379-411 | an acknowledgement is not repeated before its time unless something new comes in |
| RdpAnswers.ReadAcks | libcsp/src/csp_io.c:46-98 | an acknowledgement held back for want of room is sent by the read that makes the room |
| RdpAnswers.FlushLeavesRoom | libcsp/src/csp_rdp.c:257-298 | emptying the reorder queue never takes the last two places of the connection's queue |
| RdpAnswers.QueuedOnce | libcsp/src/csp_rdp.c:744-753 | data ahead of its turn is queued once: a number that waits already changes nothing in the queue; another is queued and all that waits listed to the sender |
| RdpAnswers.ResentOnce | libcsp/src/csp_rdp.c:459-493 | what a timer pass sends again is not sent once more before the packet timeout has passed |
| RdpAnswers.SentAgainInTime | libcsp/src/csp_rdp.c:885-935 | a payload that was taken is due again if and only if the packet timeout has passed since |
| RdpAnswers.SynRepeated | libcsp/src/csp_rdp.c:822-856 | a SYN without an answer is sent again by the first timer pass after the packet timeout and not before |
| RdpAnswers.SynAckRepeated | libcsp/src/csp_rdp.c:683-689 | until the handshake ends, anything out of turn that acknowledges draws the SYN/ACK again |
| RdpAnswers.SecondSynIgnored | libcsp/src/csp_rdp.c:672-689 | a SYN that comes again draws no answer, although the comment at line 687 says it does |
| RdpAnswers.OddSegment | libcsp/src/csp_rdp.c:672-681 | on an open connection a SYN, or a segment without an acknowledgement, is ignored if it repeats the first SYN and otherwise closes the connection with a reset |
| RdpAnswers.StrayAnswered | libcsp/src/csp_rdp.c:576-581 | a segment of no connection is answered with a reset and leaves the slot closed |
| RdpAnswers.HalfOpenAnswered | libcsp/src/csp_rdp.c:644-652 | an acknowledgement without a SYN, while connecting, is answered with a reset and changes nothing |
| RdpAnswers.ResetRepeated | libcsp/src/csp_rdp.c:777-797 | a side that is closing answers every acceptable acknowledgement with its reset again |
| RdpAnswers.SocketFull | libcsp/src/csp_rdp.c:704-728 | a handshake that ends while the socket has no room leaves no handle, tells the peer, and waits with user and protocol counted as closed |
| RdpAnswers.SocketTakes | libcsp/src/csp_rdp.c:704-728 | with room the connection is handed over if and only if the right number is acknowledged, and is closed with a reset otherwise |
| RdpAnswers.SilentAfterSyn | libcsp/src/csp_rdp.c:431-442 | whoever asks for a connection and falls silent has its slot until the connection timeout of its SYN has passed, and no longer |
| RdpAnswers.FailedConnect | libcsp/src/csp_rdp.c:858-883 | a connect without an answer leaves no handle, and its slot is given back by the first timer pass after the connection timeout |
| RdpEffect.ResetMissesTheWrap | libcsp/src/csp_rdp.c:531-566 | an in-sequence reset closes the connection if and only if rcv_cur is not 0xFFFF; otherwise it does nothing but move snd_una if it carries an acknowledgement |
| RdpAcks.EackFilterThins | libcsp/src/csp_rdp.c:336-377 | an extended acknowledgement keeps the retransmit queue sorted and removes or re-times entries only |
| RdpAcks.PassFilterThins | libcsp/src/csp_rdp.c:459-493 | the message-timeout loop keeps the retransmit queue sorted and changes no number or payload |
| RdpRecover.EackLeaves | libcsp/src/csp_rdp.c:336-377 | an entry leaves through an EACK only if its number is listed |
| RdpRecover.PassLeaves | libcsp/src/csp_rdp.c:459-493 | an entry leaves through the timeout loop only if its number is before snd_una |
| RdpRecover.ReadyMeans | libcsp/src/csp_rdp.c:413-419 | the transmit-window test, on unwrapped numbers |
| RdpRecover.SortedLength | libcsp/src/csp_rdp_queue.c:55-106 | a sorted queue is no longer than the span of its numbers, which bounds the retransmit queue |
| RdpEndpoint.RxQueueFlush | libcsp/src/csp_rdp.c:257-298 | the rotating loop with its restart is the recursive drain |
| RdpEndpoint.SeqInRxQueue | libcsp/src/csp_rdp.c:300-326 | the rotating search finds a number exactly if it is queued, and leaves a rotation of the queue |
| RdpEndpoint.ListRxQueue | libcsp/src/csp_rdp.c:176-214 | once round the queue lists the first numbers and leaves the queue as it was |
| RdpEndpoint.CompareEacks | libcsp/src/csp_rdp.c:349-366 | one element against all listed numbers: found, and made due by a larger number outside quarantine |
| RdpEndpoint.FlushEack | libcsp/src/csp_rdp.c:336-377 | the rotating loop is the filter of the retransmit queue |
| RdpEndpoint.CheckQueue | libcsp/src/csp_rdp.c:459-493 | the rotating loop frees what is acknowledged and sends again what is due |
| RdpEndpoint.Endpoint.SendCmp | libcsp/src/csp_rdp.c:118-170 | the message sent, a SYN kept, the last acknowledgement recorded |
| RdpEndpoint.Endpoint.SendEack | libcsp/src/csp_rdp.c:176-214 | an extended acknowledgement of the reorder queue |
| RdpEndpoint.Endpoint.CheckAck | libcsp/src/csp_rdp.c:379-411 | an acknowledgement exactly if there is room and one is due |
| RdpEndpoint.Endpoint.CloseInternal | libcsp/src/csp_rdp.c:957-989 | the new state, the reset of a first close, and whether the slot must wait (`CloseTells`, `LastCloseGivesBack`) |
| RdpEndpoint.Endpoint.ConnClose | libcsp/src/csp_conn.c:211-245 | queues emptied and slot closed once all three have closed |
| RdpEndpoint.Endpoint.DiscardClose | libcsp/src/csp_rdp.c:805-814 | the closing exit of the receiver |
| RdpEndpoint.Endpoint.CheckTimeouts | libcsp/src/csp_rdp.c:427-510 | the timer pass of one connection |
| RdpEndpoint.Endpoint.RecvRst | libcsp/src/csp_rdp.c:531-566 | the reset paths |
| RdpEndpoint.Endpoint.RecvClosed | libcsp/src/csp_rdp.c:574-613 | a SYN opens, anything else is answered with a reset |
| RdpEndpoint.Endpoint.RecvSynSent | libcsp/src/csp_rdp.c:620-663 | the answer to a SYN |
| RdpEndpoint.Endpoint.RecvData | libcsp/src/csp_rdp.c:739-773 | data in sequence, ahead of sequence, or empty |
| RdpEndpoint.Endpoint.RecvAccepted | libcsp/src/csp_rdp.c:696-773 | an acceptable segment: acknowledgement, EACK or data |
| RdpEndpoint.Endpoint.RecvOpen | libcsp/src/csp_rdp.c:669-773 | the checks before a segment is accepted |
| RdpEndpoint.Endpoint.NewPacket | libcsp/src/csp_rdp.c:512-820 | the state machine for one received segment |
| RdpEndpoint.Endpoint.RouteWork | libcsp/src/csp_route.c:108-292 | a timer pass, then at most one segment |
| RdpEndpoint.Endpoint.Send | libcsp/src/csp_rdp.c:885-935 | the outcome, and the payload numbered, kept and sent |
| RdpEndpoint.Endpoint.Read | libcsp/src/csp_io.c:46-98 | what is read, and the delayed acknowledgement it may trigger |
| RdpEndpoint.Endpoint.Close | libcsp/src/csp_conn.c:207-209 | the user's close |
| RdpEndpoint.Endpoint.ConnectStart | libcsp/src/csp_rdp.c:822-856 | numbers chosen, options set, SYN sent |
| RdpEndpoint.Endpoint.ConnectEnd | libcsp/src/csp_rdp.c:858-883 | a handle if the connection opened, otherwise closed |
| CspId.HeaderRoundTrip | libcsp/src/csp_id.c:42-170 | strip inverts prepend if and only if the identifier's fields fit the header, in both versions |
| CspId.HeaderInverts | libcsp/src/csp_id.c:42-170 | the packed bytes alone give the identifier back |
| Formats.Header1Layout | libcsp/src/csp_id.c:42-59 | where each field of version 1 lies, byte by byte |
| Formats.Header2Layout | libcsp/src/csp_id.c:123-141 | where each field of version 2 lies, byte by byte |
| Kiss.RoundTrip | libcsp/src/interfaces/csp_if_kiss.c:23-190 | packets that fit, encoded, concatenated and cut into any chunks, decode to the same list |
| Kiss.Resynchronises | libcsp/src/interfaces/csp_if_kiss.c:71-190 | after any bytes and from any decoder state a stream of frames loses at most the first; at most one packet is handed on before the second, and the rest arrive once, in order, unchanged |
| Kiss.DeliveredExactlyIfFits | libcsp/src/interfaces/csp_if_kiss.c:80-85 | a packet with room for its checksum is delivered if and only if header, data and checksum are shorter than the receive limit |
| Kiss.ChunksDoNotMatter | libcsp/src/interfaces/csp_if_kiss.c:71-78 | receiving chunk by chunk is receiving the concatenation |
| Kiss.FrameResyncs | libcsp/src/interfaces/csp_if_kiss.c:71-190 | one whole frame brings any decoder between frames, and hands on at most one packet |
| Kiss.FrameTaken | libcsp/src/interfaces/csp_if_kiss.c:114-165 | between frames a frame with room is decoded to itself, escapes included |
| Kiss.LongFrameLost | libcsp/src/interfaces/csp_if_kiss.c:80-85 | a frame as long as the limit is given up |
| Kiss.HandedOnGenuine | libcsp/src/interfaces/csp_if_kiss.c:114-160 | whatever is received, from any decoder: every packet handed on came in a frame below the receive limit whose last four bytes are the checksum of its data, or of its frame |
| Kiss.DamagedFrameDropped | libcsp/src/interfaces/csp_if_kiss.c:139-143 | a frame damaged within four consecutive bytes of its data is dropped, if and only if the old checksum is not that of the damaged frame |
| Kiss.SkippedWhole | libcsp/src/interfaces/csp_if_kiss.c:89-105 | a frame that finds no buffer is skipped whole |
| Formats.KissExample | libcsp/src/interfaces/csp_if_kiss.c:23-66 | a frame with both special bytes, on the line |
| Kiss.Tx | libcsp/src/interfaces/csp_if_kiss.c:23-66 | the escaping loop writes the frame's line form |
| Kiss.Interface.constructor | libcsp/src/interfaces/csp_if_kiss.c:203-207 | the decoder starts between frames |
| Kiss.Interface.Store | libcsp/src/interfaces/csp_if_kiss.c:162-165 | one byte goes behind those received, inside the buffer |
| Kiss.Interface.Byte | libcsp/src/interfaces/csp_if_kiss.c:77-188 | one turn of the decoder, never writing past the receive limit |
| Kiss.Interface.Receive | libcsp/src/interfaces/csp_if_kiss.c:71-190 | the decoder loop over a chunk |
| CrcPacket.AppendVerifies | libcsp/src/csp_crc32.c:61-116 | an appended checksum verifies and is stripped, whatever the first comparison says |
| CrcPacket.VerifiedExactly | libcsp/src/csp_crc32.c:87-116 | a packet verifies if and only if append makes it from what comes out, or its last four bytes are the checksum of its whole frame |
| CrcPacket.WrongSumRejected | libcsp/src/csp_crc32.c:105-109 | any other four bytes behind the data are rejected, unless they are the checksum of the frame |
| CrcPacket.DamageRejected | libcsp/src/csp_crc32.c:87-116 | damage within four consecutive bytes of the data after the checksum was appended is rejected, unless the old checksum is that of the damaged frame |
| Formats.ChecksumOfAbc | libcsp/src/csp_crc32.c:46-59 | the CRC-32C of "abc" |
| Formats.AppendedToAbc | libcsp/src/csp_crc32.c:61-85 | the checksum is appended most significant byte first |
| PacketBuffer.Buffer.Put | libcsp/src/csp_crc32.c:80-82 | bytes behind the data, in place |
| PacketBuffer.Buffer.Crc32Append | libcsp/src/csp_crc32.c:61-85 | the checksum in place, refused without room |
| PacketBuffer.Buffer.Crc32Verify | libcsp/src/csp_crc32.c:87-116 | both comparisons, and the checksum stripped; `VerifiedExactly` says which packets pass |
| PacketBuffer.Buffer.HmacAppend | libcsp/src/crypto/csp_hmac.c:127-151 | four bytes of the code in place, refused without room |
| PacketBuffer.Buffer.HmacVerify | libcsp/src/crypto/csp_hmac.c:153-189 | the code compared and stripped |
| Crc32.TableIsDivision | libcsp/src/csp_crc32.c:12-44 | every table entry is eight bits of division by the CRC-32C polynomial |
| Crc32.TableStepIsDivision | libcsp/src/csp_crc32.c:46-59 | one lookup is eight bits of the bit-by-bit division |
| Crc32.Memory | libcsp/src/csp_crc32.c:46-59 | the table loop is the bit-by-bit reflected division of the whole string |
| Crc32.BurstDetected | libcsp/src/csp_crc32.c:12-59 | strings of equal length that differ only within four consecutive bytes never have the same checksum |
| Crc32.BurstShows | libcsp/src/csp_crc32.c:46-59 | the same for any register whose steps reach no further than a byte each |
| Sha1.NextRound | libcsp/src/crypto/csp_sha1.c:45-70 | one macro of the unrolled loop is one round of section 6.1.2 of FIPS 180-4 |
| Sha1.TwentyRounds | libcsp/src/crypto/csp_sha1.c:94-128 | the unrolled loop, variables changing places, is twenty rounds |
| Sha1.CompressBlock | libcsp/src/crypto/csp_sha1.c:72-136 | the next intermediate hash value, its schedule expanded with the code's own rotation |
| Sha1.ScheduleTwice | libcsp/src/crypto/csp_sha1.c:87-89 | from word 32 on the schedule is four words, 6, 16, 28 and 32 back, exclusive-or and rotated by two, which no other rotation of the expansion gives |
| Sha1.RoundConstants | libcsp/src/crypto/csp_sha1.c:51-70 | each constant is the integer part of 2^30 times the square root of 2, 3, 5 or 10 |
| Sha1Example.DigestOfAbc | libcsp/src/crypto/csp_sha1.c:72-206 | the digest of "abc" is the one FIPS 180-4 publishes |
| Sha1.BlocksAppend | libcsp/src/crypto/csp_sha1.c:149-172 | hashing blocks is hashing what is in front, then the rest |
| Sha1.HeldShort | libcsp/src/crypto/csp_sha1.c:174-201 | fewer than 56 bytes left over: one last block is exactly the padding of section 5.1.1 of FIPS 180-4 |
| Sha1.HeldLong | libcsp/src/crypto/csp_sha1.c:184-201 | 56 bytes or more left over: two last blocks are exactly that padding |
| Sha1.State.constructor | libcsp/src/crypto/csp_sha1.c:138-147 | nothing has been fed |
| Sha1.State.TakeBlock | libcsp/src/crypto/csp_sha1.c:154-158 | a block from the input is fed |
| Sha1.State.TakeBytes | libcsp/src/crypto/csp_sha1.c:159-170 | bytes through the buffer are fed |
| Sha1.State.Process | libcsp/src/crypto/csp_sha1.c:149-172 | what is fed is what was fed before and the data, however it is cut |
| Sha1.State.PadTo | libcsp/src/crypto/csp_sha1.c:195-197 | zeros up to a position |
| Sha1.State.CloseBlock | libcsp/src/crypto/csp_sha1.c:184-193 | an extra block exactly if the length does not fit behind the message |
| Sha1.State.StoreLength | libcsp/src/crypto/csp_sha1.c:29-39 | eight shifts, each cut to a byte, are the length in bits, most significant byte first |
| Sha1.State.Done | libcsp/src/crypto/csp_sha1.c:174-206 | the FIPS 180-4 digest of all that was fed |
| Sha1.DigestOfPieces | libcsp/src/crypto/csp_sha1.c:138-206 | any split of a message gives the digest of the whole |
| Sha1.Memory | libcsp/src/crypto/csp_sha1.c:208-214 | the digest in one call |
| Hmac.AddToKey | libcsp/src/crypto/csp_hmac.c:42-45 | every byte of the key with the pad added |
| Hmac.State.Init | libcsp/src/crypto/csp_hmac.c:23-52 | an empty key is refused; otherwise the block key is set and the inner pad fed |
| Hmac.State.Process | libcsp/src/crypto/csp_hmac.c:54-64 | data is fed behind the inner pad |
| Hmac.State.Done | libcsp/src/crypto/csp_hmac.c:66-91 | section 2 of RFC 2104 |
| Hmac.HmacMemory | libcsp/src/crypto/csp_hmac.c:93-113 | HMAC-SHA1 for every key that is not empty, keys over 64 bytes included |
| Hmac.AppendVerifies | libcsp/src/crypto/csp_hmac.c:127-189 | an authenticated packet verifies and comes back unchanged |
| Hmac.VerifiedWasAppended | libcsp/src/crypto/csp_hmac.c:153-189 | what verifies is what append makes of the result |
| Hmac.VerifiesExactly | libcsp/src/crypto/csp_hmac.c:153-189 | four bytes behind a text verify if and only if they are the first four of its code |
| Hmac.PadsShown | libcsp/src/crypto/csp_hmac.c:42-91 | the inner and the outer pad, shown by the keys that cancel them |
| Hmac.KeysAlike | libcsp/src/crypto/csp_hmac.c:30-40 | a key over 64 bytes is its own digest, and zeros behind a shorter key do not count |
| CanPbuf.Find | libcsp/src/interfaces/csp_if_can_pbuf.c:96-110 | the first buffer with the same masked identifier |
| CanPbuf.Projection | libcsp/src/interfaces/csp_if_can_pbuf.c:13-110 | under each masked identifier, packets delivered from any interleaving are those of its frames alone |
| CanPbuf.NoStrangers | libcsp/src/interfaces/csp_if_can_pbuf.c:13-110 | no packet is delivered under an identifier no frame had |
| CanPbuf.RxDistinct | libcsp/src/interfaces/csp_if_can_pbuf.c:46-66 | at most one buffer to a masked identifier |
| Can1.FieldsSurvive | libcsp/include/csp/interfaces/csp_if_can.h:52-86 | the field macros and the connection mask read what was packed, `remain` modulo 256 |
| Can1.RoundTrip | libcsp/src/interfaces/csp_if_can.c:46-260 | any interleaving of packets with different masked identifiers delivers each once, identical, whatever the receiver held before |
| Can1.AllOrNothing | libcsp/src/interfaces/csp_if_can.c:120-155 | of frames arriving in order the packet is delivered if and only if all arrived, and nothing else is |
| Can1.LossyInterleaving | libcsp/src/interfaces/csp_if_can.c:46-164 | losses and interleaving together: the packets delivered are those that arrived whole |
| CanSound.HandedOn1 | libcsp/src/interfaces/csp_if_can.c:46-164 | whatever frames come in on the bus, malformed ones included: every packet handed on is made of frames in a row of its masked identifier, the first with its header and length, the others with `remain` counting down, together exactly the bytes announced, within the MTU |
| Can1.DeliveredExactlyIfCarried | libcsp/src/interfaces/csp_if_can.c:190-194 | delivered if and only if the length is within the MTU and 2042 bytes |
| Can1.Tx | libcsp/src/interfaces/csp_if_can.c:166-260 | the frames put on the bus, cut short where the driver refuses |
| Formats.Can1Layout | libcsp/include/csp/interfaces/csp_if_can.h:52-86 | where each field of a CFP 1 identifier lies |
| Formats.Can1Frames | libcsp/src/interfaces/csp_if_can.c:166-260 | each frame of a packet: header, length and two bytes, then eight bytes at a time, `remain` counting down to zero |
| Formats.LengthBytes | libcsp/src/interfaces/csp_if_can.c:208-210 | the length field, most significant byte first |
| Can2.FieldsSurvive | libcsp/include/csp/interfaces/csp_if_can.h:101-144 | the fields and the connection mask read what was packed, the fragment number modulo 8 |
| Can2.HeaderCarried | libcsp/src/interfaces/csp_if_can.c:296-305 | identifier and header extension together are the packed version 2 header |
| Can2.RoundTrip | libcsp/src/interfaces/csp_if_can.c:262-465 | any interleaving delivers each packet once, identical except for a broadcast destination |
| Can2.LossExactly | libcsp/src/interfaces/csp_if_can.c:317-335 | something is delivered if and only if the first and last frame arrive and every run of lost fragments is a multiple of eight; it is the packet without the lost data |
| Can2.AllOrNothing | libcsp/src/interfaces/csp_if_can.c:317-335 | with fewer than eight losses in a row, delivered if and only if every frame arrived |
| CanSound.HandedOn2 | libcsp/src/interfaces/csp_if_can.c:262-369 | whatever frames come in on the bus: every packet handed on is made of frames in a row of its masked identifier, the first with the header, the others numbered one by one modulo eight, the last and no other the end, within the MTU |
| Can2.EightLostSplices | libcsp/src/interfaces/csp_if_can.c:332-335 | every packet over 68 bytes can be delivered with 64 bytes cut out |
| Can2.DeliveredExactlyIfCarried | libcsp/src/interfaces/csp_if_can.c:337-343 | delivered if and only if data and six header bytes are within the MTU |
| Can2.Tx | libcsp/src/interfaces/csp_if_can.c:371-465 | the frames put on the bus, cut short where the driver refuses |
| Formats.Can2Layout | libcsp/include/csp/interfaces/csp_if_can.h:101-144 | where each field of a CFP 2 identifier lies |
| Formats.Can2Frames | libcsp/src/interfaces/csp_if_can.c:371-465 | each frame of a packet: header extension and four bytes, then eight bytes at a time, numbered modulo eight, the end bit on the last |
| CanInterface.Interface.PbufFind | libcsp/src/interfaces/csp_if_can_pbuf.c:96-110 | the list search |
| CanInterface.Interface.PbufNew | libcsp/src/interfaces/csp_if_can_pbuf.c:46-66 | a buffer put first |
| CanInterface.Interface.PbufFree | libcsp/src/interfaces/csp_if_can_pbuf.c:13-44 | the buffer leaves the list |
| CanList.List.Insert | libcsp/src/interfaces/csp_if_can_pbuf.c:46-66 | on pointers: the buffer put first, the others behind it |
| CanList.List.Sweep | libcsp/src/interfaces/csp_if_can_pbuf.c:68-94 | the relinking loop on pointers: what is reachable afterwards, and that each buffer to go is given back once |
| CanList.List.Free | libcsp/src/interfaces/csp_if_can_pbuf.c:13-44 | one buffer is taken out of the pointers, and the others stay in order |
| CanList.SweptExactly | libcsp/src/interfaces/csp_if_can_pbuf.c:68-94 | the loop leaves exactly the buffers that stay if and only if no two neighbours go |
| CanList.SweptKeepsGone | libcsp/src/interfaces/csp_if_can_pbuf.c:75-91 | where two neighbours go, one that was given back stays reachable |
| CanInterface.Interface.Bind | libcsp/src/interfaces/csp_if_can.c:58-71 | a frame is bound to a buffer, to a new one, or to none |
| CanInterface.Interface.Settle | libcsp/src/interfaces/csp_if_can.c:145-155 | the buffer kept, given back or handed on |
| CanInterface.Interface.Can1Take | libcsp/src/interfaces/csp_if_can.c:73-155 | the switch with its fall-through |
| CanInterface.Interface.Can2Take | libcsp/src/interfaces/csp_if_can.c:282-366 | begin, fragment, overflow and end |
| CanInterface.Interface.Can1Rx | libcsp/src/interfaces/csp_if_can.c:46-164 | the list and the packets handed on after one frame |
| CanInterface.Interface.Can2Rx | libcsp/src/interfaces/csp_if_can.c:262-369 | the list and the packets handed on after one frame |
| Sfp.HeaderSurvives | libcsp/src/csp_sfp.c:23-50 | the fragment header that was added is removed, with the data |
| Sfp.RemovedExactly | libcsp/src/csp_sfp.c:23-50 | a packet is taken for a fragment if and only if it carries the flag, has room for a header, and its offset is not past its total; its data are then the fragment's bytes, offset and total |
| Formats.SfpPackets | libcsp/src/csp_sfp.c:52-97 | each packet of a block: the next `mtu` bytes, their offset, the size of the whole, and the flag |
| Formats.Be32Bytes | libcsp/src/csp_sfp.c:84-87 | offset and size, most significant byte first |
| Sfp.Send | libcsp/src/csp_sfp.c:52-97 | the fragments sent; refused for a zero MTU, cut short where no buffer fits |
| Sfp.RoundTrip | libcsp/src/csp_sfp.c:52-194 | receive inverts send and reads nothing past the last fragment |
| Sfp.Soundness | libcsp/src/csp_sfp.c:99-194 | for a total below 2^32 less the bytes of the longest fragment, plus one, an accepted block has exactly totalsize bytes, is its fragments in order without a gap, and takes at most totalsize of them |
| Sfp.SoundnessFails | libcsp/src/csp_sfp.c:158-185 | for every buffer size and every total from there on, some fragments that fit the buffers are accepted as a block of 2^32 bytes more than the total |
| Sfp.SoundExactly | libcsp/src/csp_sfp.c:99-194 | for every buffer size: what is received always has the size announced if and only if the total is below that limit |
| Sfp.TakeIsPlace | libcsp/src/csp_sfp.c:134-185 | one turn of the loop, on unwrapped offsets |
| Sfp.Recv | libcsp/src/csp_sfp.c:99-194 | the copying loop, inside its buffer |
| ConnTable.UniqueDemultiplexing | libcsp/src/csp_conn.c:90-141 | after any connects, packets and closes at most one open connection matches a packet, so the search does not depend on scan order |
| ConnTable.StepKeepsWf | libcsp/src/csp_conn.c:157-330 | every step keeps outgoing ports distinct and incoming connections apart |
| ConnTable.RefusedExactlyIfFull | libcsp/src/csp_conn.c:157-185 | the cyclic search fails if and only if every slot is open |
| ConnTable.Conversation | libcsp/src/csp_route.c:225-259 | two tables: once a connection at one node has made one at the other, until one of the two is closed and whatever else either table goes through, every packet of each matches the other and no third, with the addresses and the ports turned round |
| ConnTable.ConnectMakes | libcsp/src/csp_conn.c:252-330 | the packets of an outgoing connection go to the peer's port, from the port of its slot |
| ConnTable.IncomingMakes | libcsp/src/csp_route.c:229-239 | the packets of an incoming connection go back to the address and port they came from |
| ConnTable.StaysUntilClosed | libcsp/src/csp_conn.c:157-245 | in every run a connection keeps its identifiers until it is closed |
| ConnTable.TakesNearest | libcsp/src/csp_conn.c:157-205 | a new connection takes the first closed slot after the one given last and leaves the others as they are |
| ConnTable.Find | libcsp/src/csp_conn.c:90-141 | the first open connection that matches |
| ConnTable.Connections.constructor | libcsp/src/csp_conn.c:50-64 | all slots closed, each with its port |
| ConnTable.Connections.FindExisting | libcsp/src/csp_conn.c:90-141 | the scan |
| ConnTable.Connections.Allocate | libcsp/src/csp_conn.c:157-205 | a closed slot after the last one given |
| ConnTable.Connections.ConnectTo | libcsp/src/csp_conn.c:302-311 | a client connection with the port of its slot |
| ConnTable.Connections.CloseSlot | libcsp/src/csp_conn.c:211-245 | the slot closed |
| NodeBuffers.Conservation | libcsp/src/csp_buffer.c:66-152 | in every state of every run each buffer is in exactly one place and counted as referred to exactly if it is not free |
| NodeBuffers.RoutedOnce | libcsp/src/csp_route.c:108-292 | a packet the router takes is afterwards in exactly one place: freed once or handed on once |
| NodeBuffers.StepGood | libcsp/src/csp_io.c:110-275 | every router, application and driver step keeps every buffer in one place |
| NodeBuffers.SendDirectOwned | libcsp/src/csp_io.c:110-159 | the packet and its clones each end with a driver or in the pool |
| NodeBuffers.SendFailsExactly | libcsp/src/csp_io.c:110-143 | a clone fails if and only if fewer buffers are free than one for the clone at hand and one for each a driver has kept |
| NodeBuffers.NeverFailsExactly | libcsp/src/csp_io.c:110-143 | no clone fails, whatever the drivers answer, if and only if there is a free buffer for every interface the packet goes to |
| NodeBuffers.FreeOwned | libcsp/src/csp_buffer.c:122-152 | freeing a buffer in hand puts it back once |
| NodeBuffers.GetOwned | libcsp/src/csp_buffer.c:66-87 | a buffer taken is in no other place |
| NodeBuffers.ToMeOwned | libcsp/src/csp_route.c:172-291 | callback, socket and connection paths each dispose of the packet once |
| NodeDemux.UniqueInEveryRun | libcsp/src/csp_route.c:187-259 | in every run of the whole node a packet matches at most one open connection |
| NodeSend.SentExactly | libcsp/src/csp_io.c:110-159 | on a local subnet one copy leaves on every interface the destination is within, save the incoming one and those that share its subnet, and on no other, under the identifier sent with that interface's address as its source; otherwise the packet leaves on the interface of its route, unchanged; the buffers hold these identifiers |
| NodeSend.AppSendLeaves | libcsp/src/csp_io.c:230-275 | in every run what is sent on a connection leaves so, under the identifier of the connection |
| NodeSend.ForwardLeaves | libcsp/src/csp_route.c:157-164 | in every run a packet for another node leaves so, under the identifier it carries |
| NodeQueues.NeverMisdelivered | libcsp/src/csp_route.c:172-291 | in every state of every run a packet in the queue of a connection matches it, and a packet in the queue of a connection-less socket is for a port of that socket |
| NodeQueues.FirstInFirstOut | libcsp/src/csp_qfifo.c:18-61 | in every step of every run the input queue, the queues of the sockets and those of connections that stay open gain an element behind the others, lose the first, or stay |
| NodeQueues.QueuedOnConnection | libcsp/src/csp_route.c:272-291 | a packet for an open connection with room is queued on that one, last, and nothing else changes |
| NodeQueues.NewConnectionOffered | libcsp/src/csp_route.c:225-291 | the first packet of a new connection is queued on it alone, and the connection offered to the socket of its port, once |
| NodeQueues.QueuedOnSocket | libcsp/src/csp_route.c:172-223 | a packet for a callback or a connection-less socket goes to its application, or last in its queue |
| NodeQueues.RejectedReachesNobody | libcsp/src/csp_route.c:145-259 | a duplicate, or a packet that fails the security check, goes back to the pool and reaches nobody |
| NodeCode.Router.constructor | libcsp/src/csp_buffer.c:24-41 | all buffers free |
| NodeCode.Router.BufferGet | libcsp/src/csp_buffer.c:66-87 | the first free buffer, or none |
| NodeCode.Router.BufferFree | libcsp/src/csp_buffer.c:122-152 | the reference dropped and the buffer put back |
| NodeCode.Router.BufferClone | libcsp/src/csp_buffer.c:154-167 | a second buffer with the same content |
| NodeCode.Router.QfifoPut | libcsp/src/csp_qfifo.c:26-61 | queued, or freed where the queue is full |
| NodeCode.Router.SendDirectIface | libcsp/src/csp_io.c:167-227 | the driver's, or freed |
| NodeCode.Router.SendPacket | libcsp/src/csp_io.c:110-159 | the interface loop with clones, then the routing table; `SentExactly` says what leaves where |
| NodeCode.Router.FlushQueue | libcsp/src/csp_conn.c:143-155 | the receive queue emptied into the pool |
| NodeCode.Router.ConnClose | libcsp/src/csp_conn.c:211-245 | closed and flushed |
| NodeCode.Router.EnqueuePacket | libcsp/src/csp_route.c:272-291 | queued on the connection, the connection on its socket, or undone |
| NodeCode.Router.Work | libcsp/src/csp_route.c:108-292 | the router step; `Conversation` and `NeverMisdelivered` say what it is for |
| Rtable.MaskIsQuotient | libcsp/src/csp_rtable_cidr.c:36-44 | comparing under the mask is comparing quotients by a power of two |
| Rtable.RunRefines | libcsp/src/csp_rtable_cidr.c:59-101 | after any calls the table is the map they build, keys in the order first set |
| Rtable.BestIsLongestPrefix | libcsp/src/csp_rtable_cidr.c:27-57 | the best entry of the table is the longest-prefix match of the map |
| Rtable.LongestPrefixUnique | libcsp/src/csp_rtable_cidr.c:27-57 | there is only one |
| Rtable.HostRoute | libcsp/src/csp_rtable_cidr.c:88-101 | a mask out of range makes a route that covers the one address |
| Rtable.DefaultRoute | libcsp/src/csp_rtable_cidr.c:27-57 | a mask of no bits makes a route that covers every address |
| Rtable.FitsExactly | libcsp/src/csp_rtable_cidr.c:59-78 | every call of a list finds a place if and only if the calls name no more networks than the table has places |
| Rtable.OneEntryEach | libcsp/src/csp_rtable_cidr.c:59-78 | the table has one entry for each network named, and no other |
| Rtable.FindExact | libcsp/src/csp_rtable_cidr.c:15-25 | the first entry with that address and mask |
| Rtable.Table.constructor | libcsp/src/csp_rtable_cidr.c:10-13 | an empty table |
| Rtable.Table.Exact | libcsp/src/csp_rtable_cidr.c:15-25 | the scan |
| Rtable.Table.Set | libcsp/src/csp_rtable_cidr.c:59-101 | an entry changed in place or added; refused without an interface |
| Rtable.Table.FindRoute | libcsp/src/csp_rtable_cidr.c:27-57 | none if and only if no key covers the address, otherwise the longest, the last inserted among equals, with its latest destination |
| Mutator.PowSubstitute | libcsp/src/FAQAS_dataDrivenMutator.h:75-90 | a power of two in 64 bits |
| Mutator.SliceItUp | libcsp/src/FAQAS_dataDrivenMutator.h:203-218 | the bits of a range, moved down |
| Mutator.Load | libcsp/src/FAQAS_dataDrivenMutator.h:889-895 | the cells joined |
| Mutator.Store | libcsp/src/FAQAS_dataDrivenMutator.h:1704-1715 | the cells sliced out again, the others untouched |
| Mutator.JoinOfSlices | libcsp/src/FAQAS_dataDrivenMutator.h:1704-1715 | joining what was sliced gives the word back, as far as the cells reach |
| Mutator.TurnedInCell | libcsp/src/FAQAS_dataDrivenMutator.h:889-895 | the first cell holds the high bits: turning over one bit of a two-cell item turns over that bit of the right cell, and no other |
| Mutator.BitFlip | libcsp/src/FAQAS_dataDrivenMutator.h:988-1067 | the three flip loops with their limit on attempts are the rounds over the random stream; `SucceedsExactly` says when they succeed |
| Mutator.FlipsFlipped | libcsp/src/FAQAS_dataDrivenMutator.h:988-1067 | whatever the random positions: at most `value` bits change, all in range; on success as many as `value` up to an even number, and with state 0 or 1 exactly `value`, all of that state |
| Mutator.EveryPositionOnce | libcsp/src/FAQAS_dataDrivenMutator.h:1013-1050 | any values of rand() in a row, as many as the range is long, stand for every position of the range exactly once |
| Mutator.SucceedsExactly | libcsp/src/FAQAS_dataDrivenMutator.h:988-1067 | for every item and random stream a call reports success if and only if every round draws, before its last attempt, a position modulo the size of the range whose bit still has the state asked for (any bit, for a state other than 0 and 1) |
| Mutator.MissesMeans | libcsp/src/FAQAS_dataDrivenMutator.h:1005-1041 | how many draws of a round miss: none of them fits, and the next one does |
| Mutator.Mutate | libcsp/src/FAQAS_dataDrivenMutator.h:874-1067 | load, flip and store: the item holds what it keeps of the flipped word, and no other cell changes |
| Mutator.ExactIff | libcsp/src/FAQAS_dataDrivenMutator.h:988-1067 | every call that reports success turns over exactly `value` bits, for every item and random stream, if and only if the parameters satisfy a stated condition on state, range and value |
| Mutator.ExactInItem | libcsp/src/FAQAS_dataDrivenMutator.h:988-1067 | with the range in the item: if and only if the state is 0 or 1, or at most one bit is asked for |
| Mutator.ExactFails | libcsp/src/FAQAS_dataDrivenMutator.h:1043-1062 | otherwise an item and a random stream for which a call reports success with a wrong number of bits |
| Mutator.FlipTwice | libcsp/src/FAQAS_dataDrivenMutator.h:1043-1062 | with states other than 0 and 1 a second flip of a bit undoes the first |

## Left out

- RDP: one connection to a node, and, except for `CloseSafety`, one use of a slot; the get functions of the shared queues re-tag the packets of other connections, and flush drops them.
- RDP: the retry of connect is left out, since `HalfOpenUnreachable` shows it is not taken with an honest peer.
- RDP: buffers are taken to be available for control messages and clones; each step reads the clock once; options and EACK lists are carried as numbers, not bytes; fields the code leaves uninitialised hold an arbitrary value.
- RDP: the clock values of different steps are unrelated, which covers every real clock; the runs that are shown to exist use zero, and a moment just past a segment's timeout where it is sent again.
- RDP: which schedules occur is left to the caller; `FairDelivery` takes the fair rounds as given. The window results need a receive queue of at least three places, and they do not cover continuations in which a segment sent before arrives or a user closes.
- RDP: the window results assume 1 <= window <= CSP_RDP_MAX_WINDOW and fewer than 2^15 - 2 * window payloads a direction.
- RdpEndpoint.Endpoint.RouteWork: deduplication, security checks and forwarding are not part of it; they are in the node model.
- RdpEndpoint.Endpoint.ConnectEnd: the half-open retry of connect is not part of it; `HalfOpenUnreachable` shows it is not taken with an honest peer.
- KISS and CAN: interface counters and debug codes; whether the pool has a buffer is a parameter of each call.
- CAN: no partial packet times out in the receivers; the clean-up is modelled on the list alone, in `CanList`.
- CanInterface.Interface.PbufNew: the list is a sequence, and the clean-up it begins with takes nothing out; the pointers are in `CanList.List.Insert`.
- CanInterface.Interface.PbufFree: the list is a sequence; the relinking loop is `CanList.List.Sweep`.
- Can1.Tx: the loopback of packets to the own address, which go to the router directly, is not part of it.
- Can2.Tx: the same.
- PacketBuffer.Buffer.HmacAppend: without the branch that includes the header, which the library never asks for.
- PacketBuffer.Buffer.HmacVerify: the same.
- CrcPacket.DamageRejected: not without the exception it names, since the verification first compares a checksum that covers the checksum itself.
- SHA-1: the message length is taken modulo 2^64 bits, where FIPS 180-4 stops.
- Sfp.Recv: requires a total below the limit; from there on the code can copy past its memory (`SoundnessFails`).
- Sfp.Soundness: the same limit, which `SoundExactly` shows to be exact for every buffer size.
- SFP: fragments are taken to arrive in order; the transport under it is not part of this module.
- Node: packets with the RDP flag; what deduplication, the security check, the subnet tests and the drivers decide is a parameter, so the results hold for every decision.
- NodeCode.Router.SendPacket: a send in which a clone fails is excluded, since the code then uses the null pointer; `SendFailsExactly` and `NeverFailsExactly` say exactly when that is.
- NodeCode.Router.Work: the same.
- NodeCode.Router.BufferGet: the size asked for and the corruption test are not part of it.
- NodeCode.Router.BufferFree: the tests of alignment and address are not part of it.
- NodeCode.Router.BufferClone: of the content only the identifier is carried.
- NodeCode.Router.SendDirectIface: authentication, checksum, MTU and driver answers are one parameter.
- Rtable.Table.Set: requires a free place for a new network; the code does not bound its index, and clearing does not reset it. `FitsExactly` says which calls have their places.
- Mutator: the other operators and data types, the dispatch tables and the coverage file.
- Services, drivers, other interfaces, bindings, examples and operating-system layers: I/O, or easy members.
