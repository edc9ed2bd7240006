# A verified model of a QUIC transport

This project models the bookkeeping of a QUIC transport with BBR congestion control (an IETF draft close to RFC 9000 and
RFC 9002) in Dafny and proves what that bookkeeping is for. Every file is one component:

| file | component |
|---|---|
| SentPacketHistory, RetransmissionLedger, SentPacketHandler, SentPacketRuns, PacketNumberGenerator | loss recovery and retransmission |
| AckRanges, AckFrame, ReceivedPackets, AckPipeline | ACK generation, its wire format, and looking numbers up in it |
| FrameSorter, StreamFrame, Streams | stream data from the writer through frames in any order to the reader |
| FlowControl | the credit protocol between two endpoints and the controllers that run it |
| Packing, Framer, PacketPacker, PacketNumbers | packets that fit, retransmissions that lose nothing, truncated packet numbers |
| OutgoingStreams, IncomingStreams | stream numbers, stream credit and the queue of blocked calls |
| WindowedFilter, BandwidthSampler, BbrSender | congestion control |
| Bytes, VarInts, Common | bytes, variable-length integers, and what several components share |

`dafny verify dfyconfig.toml` checks all of it.

## How it is built

Code that changes objects step by step is modelled by classes and methods with the source's fields and loops. Where an
operation is proved on plain values first (a ledger of one packet-number space, a gap list, a list of ranges), the class
method ends by assigning the result. Several modules end in a method that takes an arbitrary script of events, builds
the objects, carries the script out and returns what a user can see: `SentPacketRuns.Run`, `SentPacketHistories.Run`,
`FrameSorters.Run`, `Streams.Transfer`, `ReceivedPackets.Run`, `AckPipeline.Acknowledge`, `OutgoingStreams.Run`,
`IncomingStreams.Run`, `WindowedFilters.Run`, `BandwidthSamplers.Run`, `BbrSenders.Run` and
`PacketNumberGenerators.Run`. Their postconditions are statements about every run: they give the outcome, or a trace of
every state on the way, as a function of or a relation on the script, and then say what holds of it.
`FlowControl.FlowControlSafety` is the same for two endpoints and a network between them. `FlowControl.SenderGoesOn`,
`Streams.EverythingArrives`, `Streams.ReadingFinishes` and `OutgoingStreams.HeadIsServed` say that things get on: no
sender stays blocked, what was written arrives and is read, and a waiting call is served. New states are given twice: as
a function of the old state, on which the statements about runs rest, and packet by packet, offset by offset or place by
place, without that function.

Frames are counted in *units*, one per control frame and one per stream byte or end of stream, so that splitting a STREAM
frame splits a set or a sequence. Concurrency is modelled by steps: each step is what a call does while it holds the
mutex. Times are integers. Integer widths are written out where they matter: variable-length integers, the delay field of
an ACK, the bandwidth arithmetic, the truncated packet number.

## What the code does differently from what one expects

Each of these is stated with its exact condition in the first member named; the member in brackets is a run or an input
that shows it.

- An alarm in crypto mode dereferences a space that may have been dropped: `SentPacketHandlers.SentPacketHandler.OnAlarm`
  (`SentPacketRuns.AlarmAfterDrop`). This is a fact about the handler's interface; the session drops the keys of both
  spaces back to back (internal/handshake/crypto_setup.go:235-251).
- A Retry sets the bytes in flight to zero, which is the right number only if nothing but Initial packets is in flight:
  `SentPacketHandlers.SentPacketHandler.ResetForRetry` (`SentPacketRuns.RetryMiscounts`).
- The packet history takes a packet that may not be retransmitted for the first outstanding one if nothing else is
  outstanding: `SentPacketHistories.SentPacketHistory.SentPacket` (`SentPacketHistories.PointerAtOther`). The handler only
  registers packets that may be retransmitted.
- The frame sorter reports its internal errors exactly for frames that reach the maximum offset, and when it reports too
  many gaps it has already removed the gap of data it does not store: `FrameSorters.FrameSorter.Push`
  (`FrameSorters.BugAtMaximum`).
- A Write while an earlier one still waits makes the stream forget the data that waits: `Streams.SendStream.Write`
  (`Streams.WriteTwice`).
- Credit can be taken back if the maximum window is smaller than the window: `FlowControl.CreditKeptIff`
  (`FlowControl.CreditCanShrink`).
- An ACK frame can be 1008 bytes long although the limit is 1000: `AckFrames.Length` (`AckFrames.LongestFrame`). One range
  is left out that is within the limit whenever any is left out: `AckFrames.NumEncodableIsMaximal`
  (`AckFrames.OneRangeTooFew`).
- MaxDataLen allows more data than fits if the length field needs more than two bytes, and splitting then slices beyond
  the data: `StreamFrames.MaxDataLenIsMaximal` (`StreamFrames.FullFrameTooLong`), `StreamFrames.SplitConserves`
  (`StreamFrames.SplitBeyondData`). Packets are too small for that.
- STREAMS_BLOCKED can be sent twice for limit 0: `OutgoingStreams.ReportedTwiceIff` (`OutgoingStreams.LimitZeroTwice`).
- BBR never leaves recovery once it has entered it, in no state: `BbrSenders.BbrSender.UpdateRecoveryState`.

## Model

| member | source | states |
|---|---|---|
| SentPacketRuns.Run | internal/ackhandler/sent_packet_handler.go:82-709 | for every script of sends, dequeued packets and probes, retransmissions, ACKs, alarms, key drops and Retries, in any order, so that an ACK may come between taking a packet from the queue and sending it again: the units sent at a level are exactly those of the accepted sends, the units acknowledged exactly those of tracked packets that acceptable ACKs covered, both as folds over the script; what was sent is exactly what is acknowledged, still retransmittable, queued, or in the packet just dequeued; bytesInFlight is the sum over all tracked packets less what was in flight at the other levels during the last Retry; the run crashes exactly as specified |
| SentPacketRuns.Step | internal/ackhandler/sent_packet_handler.go:107-709 | one event on the handler has exactly the new state of the specification; a send adds its units at its level, an acceptable ACK acknowledges the units of the tracked packets it covers, a key drop clears its level, and nothing else changes what is sent or acknowledged |
| SentPacketRuns.AckEffect | internal/ackhandler/sent_packet_handler.go:207-285 | an ACK acknowledges exactly the units of the covered tracked packets at its own level, none if it is refused, and touches no other level |
| SentPacketRuns.AlarmAfterDrop | internal/ackhandler/sent_packet_handler.go:436-456 | a run in which the alarm dereferences a dropped space |
| SentPacketRuns.RetryMiscounts | internal/ackhandler/sent_packet_handler.go:692-709 | a run after which a tracked Handshake packet is missing from bytesInFlight |
| SentPacketHandlers.SentPacketHandler.constructor | internal/ackhandler/sent_packet_handler.go:82-105 | three empty spaces with their first numbers, an empty queue, nothing in flight, and the invariant |
| SentPacketHandlers.SentPacketHandler.SentPacket | internal/ackhandler/sent_packet_handler.go:139-144 | an ack-eliciting packet is appended to its space, marked retransmittable, counted in flight and taken off the probes to send; any other only advances the largest number sent; nothing else changes, and the invariant is kept |
| SentPacketHandlers.SentPacketHandler.SentPacketsAsRetransmission | internal/ackhandler/sent_packet_handler.go:146-155 | the packet in hand is replaced by packets that carry its units, packet by packet: each new entry is what was sent, marked and linked to the packet it repeats if that is still tracked, which in turn lists exactly the new ones; nothing else changes and nothing is forgotten |
| SentPacketHandlers.SentPacketHandler.CountAsSent | internal/ackhandler/sent_packet_handler.go:170-205 | bytesInFlight grows by the lengths of exactly the ack-eliciting packets, and each of them uses up one of the probes to send |
| SentPacketHandlers.SentPacketHandler.ReceivedAck | internal/ackhandler/sent_packet_handler.go:207-285 | the exact error cases; a refused ACK changes at most the largest number acknowledged, and one for an unsent packet nothing; an accepted one takes out exactly the covered tracked packets, stops exactly what repeats one of them and strikes them from the lists of the others, and if there were any exactly the overdue packets of its space leave, the retransmittable ones for the queue in order; the counters of alarms and probes are reset exactly then; the bug error is unreachable |
| SentPacketHandlers.WalkRanges | internal/ackhandler/sent_packet_handler.go:291-337 | the walk in step over history and ranges yields exactly the numbers that lie in some range, in order, and never takes its bug branch |
| SentPacketHandlers.DetermineNewlyAckedPackets | internal/ackhandler/sent_packet_handler.go:291-337 | returns exactly the tracked packets that the ACK covers, lowest first |
| SentPacketHandlers.FindLostPackets | internal/ackhandler/sent_packet_handler.go:371-411 | lost packets are exactly those old enough by number and time, they form a prefix of the history, and the alarm is set for the first packet old enough by number only |
| SentPacketHandlers.SentPacketHandler.DetectLostPackets | internal/ackhandler/sent_packet_handler.go:371-434 | exactly the packets overdue by number and time leave the history and the bytes in flight; those of them that may be retransmitted join the queue in the order of their numbers; the loss alarm is set for the first 1-RTT packet left if the largest acknowledged number is beyond it |
| SentPacketHandlers.SentPacketHandler.OnPacketAcked | internal/ackhandler/sent_packet_handler.go:489-526 | the packet leaves history and bytes in flight, and everything that repeats it, directly or not, is no longer retransmittable |
| SentPacketHandlers.AckPacket | internal/ackhandler/sent_packet_handler.go:489-526 | on the list: the parent loses the child, all descendants stop, the packet is dropped, and the bytes in flight shrink by its length |
| SentPacketHandlers.RemoveChild | internal/ackhandler/sent_packet_handler.go:501-516 | the parent keeps exactly its other children, in order |
| SentPacketHandlers.StopRetransmissionsFor | internal/ackhandler/sent_packet_handler.go:528-540 | terminates, clears exactly the descendants of the packet, and always finds the packets it follows links to |
| SentPacketHandlers.SentPacketHandler.DequeuePacketForRetransmission | internal/ackhandler/sent_packet_handler.go:542-552 | hands out the packet that was queued first |
| SentPacketHandlers.SentPacketHandler.DequeueProbePacket | internal/ackhandler/sent_packet_handler.go:554-566 | the packet queued first, otherwise the first outstanding 1-RTT packet, which is no longer retransmittable; none exactly if there is neither; nothing else changes |
| SentPacketHandlers.SentPacketHandler.QueuePacketForRetransmission | internal/ackhandler/sent_packet_handler.go:669-678 | queues a packet exactly if it may be retransmitted, once |
| SentPacketHandlers.SentPacketHandler.QueueAllPacketsForRetransmission | internal/ackhandler/sent_packet_handler.go:651-667 | exactly the retransmittable packets of the space join the queue, in order and behind what was there, and none of them is retransmittable afterwards; every other packet and space stays as it is |
| SentPacketHandlers.SentPacketHandler.OnAlarm | internal/ackhandler/sent_packet_handler.go:436-483 | the three modes by what is outstanding, packet by packet: with crypto packets outstanding, exactly the retransmittable Initial and then Handshake packets join the queue; otherwise, with 1-RTT packets outstanding and the loss timer set, exactly the overdue 1-RTT packets leave and the retransmittable ones join the queue; otherwise, with any outstanding, two probes are allowed; each mode counts only its own alarms; a nil space is dereferenced if and only if crypto packets are outstanding and one of the two crypto spaces has been dropped |
| SentPacketHandlers.SentPacketHandler.DropPackets | internal/ackhandler/sent_packet_handler.go:107-133 | exactly the packets of the dropped level leave bytes in flight and queue, the others keep their order, and one of them that was dequeued is given up; the other spaces stay as they are |
| SentPacketHandlers.SentPacketHandler.ResetForRetry | internal/ackhandler/sent_packet_handler.go:692-709 | exactly the retransmittable Initial packets are queued, in order, the Initial space starts over, and nothing is forgotten; the byte count reset to zero is right if and only if only Initial packets were in flight, and is otherwise off by exactly what was in flight elsewhere |
| SentPacketRuns.AllAccounted | internal/ackhandler/sent_packet_handler.go:371-709 | the invariant implies that what was sent is exactly the acknowledged, live and pending units together |
| SentPacketHandlers.ListingIs | internal/ackhandler/sent_packet_history.go:41-148 | a list of packets in increasing order is determined by its table, so new states can be given packet by packet |
| SentPacketHandlers.DetectedIs | internal/ackhandler/sent_packet_handler.go:371-434 | loss detection takes out exactly the overdue packets, as DetectLostPackets promises |
| SentPacketHandlers.AlarmIs | internal/ackhandler/sent_packet_handler.go:436-483 | the alarm does, packet by packet, what OnAlarm promises, and what is outstanding is what is retransmittable |
| SentPacketHandlers.AcksTakenIs | internal/ackhandler/sent_packet_handler.go:489-540 | acknowledging a list of packets one after the other comes to taking out all of them, stopping exactly their descendants and striking them from all lists |
| SentPacketHandlers.ResentIs | internal/ackhandler/sent_packet_history.go:41-60 | sending again has exactly the entries and links that SentPacketsAsRetransmission promises |
| SentPacketHandlers.AllQueuedIs | internal/ackhandler/sent_packet_handler.go:651-667 | queueing a space packet by packet queues exactly its retransmittable packets, in order |
| SentPacketHandlers.NotOfLevelIs | internal/ackhandler/sent_packet_handler.go:116-125 | dropping a level from a queue keeps exactly the packets of the other levels, in their order |
| RetransmissionLedgers.SendKeepsLedger | internal/ackhandler/sent_packet_handler.go:170-205 | sending keeps the ledger of a space: links valid, send times ordered, nothing forgotten, and nothing tracked or pending that was not sent |
| RetransmissionLedgers.QueueKeepsLedger | internal/ackhandler/sent_packet_handler.go:669-678 | queueing a packet keeps the ledger |
| RetransmissionLedgers.DropLowestKeepsLedger | internal/ackhandler/sent_packet_handler.go:371-434 | dropping the oldest packet leaves no dangling link and forgets nothing |
| RetransmissionLedgers.AckKeepsLedger | internal/ackhandler/sent_packet_handler.go:489-540 | acknowledging a parent or a child keeps the ledger |
| RetransmissionLedgers.AgainKeepsLedger | internal/ackhandler/sent_packet_history.go:41-60 | sending a packet again, in parts and under new numbers, keeps the ledger without adding to what counts as sent |
| RetransmissionLedgers.RetryKeepsLedger | internal/ackhandler/sent_packet_handler.go:692-709 | a Retry keeps the ledger of the Initial space |
| RetransmissionLedgers.DescendsBelow | internal/ackhandler/sent_packet_handler.go:528-540 | links lead to higher numbers that are tracked, and what they repeat gets smaller |
| RetransmissionLedgers.DescendantUnfold | internal/ackhandler/sent_packet_handler.go:528-540 | a descendant is the packet itself or a descendant of one of its retransmissions |
| RetransmissionLedgers.DescendantAbove | internal/ackhandler/sent_packet_handler.go:528-540 | what descends from a packet depends only on what is sent after it |
| SentPacketHistories.Run | internal/ackhandler/sent_packet_history.go:18-148 | after every run of operations, writes of links through a pointer included, the order of the elements, the map, the counter and the first pointer are those of the plain list of tracked packets |
| SentPacketHistories.Perform | internal/ackhandler/sent_packet_history.go:25-144 | each operation on the object is the operation on the plain list |
| SentPacketHistories.SentPacketHistory.SentPacket | internal/ackhandler/sent_packet_history.go:25-39 | list, map and counter follow the appended packet; the first pointer is right if and only if the packet may be retransmitted or something was outstanding before |
| SentPacketHistories.SentPacketHistory.SentPacketsAsRetransmission | internal/ackhandler/sent_packet_history.go:41-60 | new packets at the back, linked both ways with the parent if it is still tracked; the first pointer is right if and only if something was outstanding before or the first new packet may be retransmitted |
| SentPacketHistories.SentPacketHistory.ReadjustFirstOutstanding | internal/ackhandler/sent_packet_history.go:115-121 | the pointer moves to the first retransmittable packet behind |
| SentPacketHistories.SentPacketHistory.MarkCannotBeRetransmitted | internal/ackhandler/sent_packet_history.go:95-111 | clears one flag and keeps counter and pointer in agreement; fails exactly if the packet is not tracked |
| SentPacketHistories.SentPacketHistory.Remove | internal/ackhandler/sent_packet_history.go:127-144 | takes one packet out of list, map, counter and pointer; fails exactly if the packet is not tracked |
| SentPacketHistories.SentPacketHistory.Store | internal/ackhandler/sent_packet_history.go:41-60 | writing the links through a pointer changes nothing else |
| SentPacketHistories.PointerAtOther | internal/ackhandler/sent_packet_history.go:29-39 | a packet that may not be retransmitted becomes the first outstanding one |
| SentPacketHistories.OutstandingCount | internal/ackhandler/sent_packet_history.go:146-148 | the counter is zero exactly if there is no first retransmittable packet |
| PacketNumberGenerators.PacketNumberGenerator.Pop | internal/ackhandler/packet_number_generator.go:36-52 | the next number; the one after it is left out exactly if it was drawn, and the next to leave out is drawn exactly then; numbers come out increasing, each below the next is handed out or left out, never both, no two neighbours are left out, and the history holds the last ten left out |
| PacketNumberGenerators.PacketNumberGenerator.Validate | internal/ackhandler/packet_number_generator.go:71-78 | an ACK is refused exactly if it covers one of the last ten numbers left out; an ACK of numbers handed out is never refused |
| PacketNumberGenerators.Run | internal/ackhandler/packet_number_generator.go:23-69 | for every run: the numbers go up by one or, past one left out, by two; none comes twice, none handed out is left out, and no two neighbours are left out |
| AckRanges.ValidateAckRanges | internal/wire/ack_frame.go:172-199 | checking neighbours decides that the whole list is ordered, non-empty, disjoint and non-adjacent |
| AckRanges.AcksPacket | internal/wire/ack_frame.go:212-222 | the binary search agrees with plain membership in some range |
| AckFrames.RoundTrip | internal/wire/ack_frame.go:22-120 | what is written for the first n ranges, followed by anything, is read back as these ranges, with the delay rounded down to eight microseconds |
| AckFrames.RoundTripEcn | internal/wire/ack_frame.go:22-98 | a frame with ECN counts is read like one without, for every delay exponent; a frame that ends before the third count is refused |
| AckFrames.BadRangeRefused | internal/wire/ack_frame.go:60-82 | a range that runs into the one before or below zero is refused, wherever it comes and whatever follows |
| AckFrames.ParseHeadBack | internal/wire/ack_frame.go:22-59 | the fields in front are read back for both types; a first range that would begin below zero is refused |
| AckFrames.DelayScales | internal/wire/ack_frame.go:36-40 | one more in the delay exponent doubles the delay |
| AckFrames.ExampleBytes | internal/wire/ack_frame.go:101-120 | the fields and their order on an example |
| AckFrames.Write | internal/wire/ack_frame.go:101-120 | the bytes are those of as many ranges as are encodable, at least one, and the peer reads back exactly these |
| AckFrames.NumEncodableAckRanges | internal/wire/ack_frame.go:143-157 | the loop computes the number of ranges that NumEncodableIsMaximal describes |
| AckFrames.NumEncodableIsMaximal | internal/wire/ack_frame.go:143-157 | at least one range, the blocks keep to the limit, and if ranges are left out then exactly one of them would still have fitted |
| AckFrames.Length | internal/wire/ack_frame.go:123-139 | is the number of bytes Write produces; above the limit of 1000 if and only if the extent of the first range takes more than the room left for it, never by more than eight bytes, and not with up to 64 ranges and a first range of up to 64 packets |
| AckFrames.LongestFrame | internal/wire/ack_frame.go:123-139 | a frame of 65 ranges that takes 1008 bytes |
| AckFrames.OneRangeTooFew | internal/wire/ack_frame.go:143-157 | a frame written with 496 ranges although 497 take exactly 1000 bytes |
| AckFrames.Parse | internal/wire/ack_frame.go:22-98 | every accepted frame has ordered, disjoint, non-adjacent ranges; what is read from which bytes is said by RoundTrip, RoundTripEcn and BadRangeRefused |
| AckFrames.ReadBlocks | internal/wire/ack_frame.go:58-82 | the loop over the ranges computes what Parse is made of |
| AckFrames.ParseBlocksWellFormed | internal/wire/ack_frame.go:58-86 | ranges that come out of the loop always pass the final validation |
| AckFrames.WrittenCover | internal/wire/ack_frame.go:101-120 | the ranges written acknowledge exactly what the frame does from the lowest written range up |
| ReceivedPackets.Run | internal/ackhandler/received_packet_tracker.go:47-76 | for every run of received packets and limits: the ACK ranges are well-formed and cover exactly the numbers of packets that arrived and that no limit lies above, up to the first packet of interest that arrives when a thousand ranges are tracked, and there the run stops; never within a thousand events |
| ReceivedPackets.RangesUnique | internal/ackhandler/received_packet_history.go:100-112 | well-formed ranges are determined by the numbers they cover, so the ranges are the only ones the ACK could have |
| ReceivedPackets.OverfullIff | internal/ackhandler/received_packet_history.go:29-37 | a packet finds the history full exactly if it is of interest and the ranges that stand for what was received are a thousand or more |
| AckPipeline.Acknowledge | internal/wire/ack_frame.go:22-226 | for every run of arriving packets and limits up to the first packet that finds too many ranges: there is an ACK exactly if a number received is not ignored; the peer reads as many of the tracked ranges as are encodable, highest first, from at most 1008 bytes, and they acknowledge exactly the numbers that arrived and are not ignored, down to the lowest range written |
| ReceivedPackets.ReceivedIff | internal/ackhandler/received_packet_tracker.go:47-76 | a number at or above the final limit counts as received exactly if a packet with it arrived |
| ReceivedPackets.LowestIff | internal/ackhandler/received_packet_tracker.go:67-76 | a number is at or above the limit exactly if no event named a limit above it |
| ReceivedPackets.ReceivedPacketTracker.ReceivedPacket | internal/ackhandler/received_packet_tracker.go:47-63 | a packet below the limit is passed over, any other is recorded and may be the largest observed; it fails exactly if there are too many ranges |
| ReceivedPackets.ReceivedPacketTracker.IgnoreBelow | internal/ackhandler/received_packet_tracker.go:67-76 | the limit only rises, and exactly the numbers below it are forgotten |
| ReceivedPackets.ReceivedPacketHistory.ReceivedPacket | internal/ackhandler/received_packet_history.go:29-76 | the ranges stay sorted, disjoint and non-adjacent and stand for one number more |
| ReceivedPackets.AddNumber | internal/ackhandler/received_packet_history.go:39-73 | the walk from the highest range down extends, merges or inserts so that exactly the new number is added |
| ReceivedPackets.ReceivedPacketHistory.DeleteBelow | internal/ackhandler/received_packet_history.go:79-97 | exactly the numbers below the limit are removed, unless that was done before |
| ReceivedPackets.ReceivedPacketHistory.GetAckRanges | internal/ackhandler/received_packet_history.go:100-112 | highest range first, well-formed, covering exactly the recorded numbers |
| Streams.Transfer | receive_stream.go:91-245 | for every script of writes, frame cuts, re-cuts, deliveries in any order and number, and reads, a trace of everything visible at both ends: each event does exactly what it should, frames are cuts of what was written and together carry all that was handed out, what is delivered is a prefix of it, a read gets on as far as bytes have arrived, and EOF is told only after all of it and only if the writer closed; the run ends early only with more gaps than are tracked |
| Streams.SendStream.Write | send_stream.go:77-144 | accepted exactly before Close; the data waiting is replaced, so the bytes are appended to all that was written if and only if none was waiting |
| Streams.WriteTwice | send_stream.go:77-144 | a second call that comes too early replaces the data of the first |
| Streams.SendStream.Close | send_stream.go:230-242 | the stream is finished, nothing else changes |
| Streams.SendStream.GetDataForWriting | send_stream.go:204-228 | the next bytes written, exactly as many as room, window and data allow; FIN exactly once all is handed out, the stream is closed and no FIN was sent |
| Streams.SendStream.PopStreamFrame | send_stream.go:159-195 | the frame starts where the last ended, is cut from what was written, is as long as data, window and room allow, and carries FIN exactly if it takes all of a closed stream; no frame exactly if there is nothing to send, no room or a closed window; more data is reported exactly if some is left |
| Streams.ReceiveStream.HandleStreamFrame | receive_stream.go:229-245 | a frame cut from the written string is never refused as a bug and adds exactly its offsets |
| Streams.ReceiveStream.DequeueNextFrame | receive_stream.go:186-191 | there is a next chunk exactly if the next byte was received; it is known to be the last exactly at the final offset |
| Streams.ReceiveStream.Read | receive_stream.go:91-184 | returns the next bytes of the written string up to the first that has not been received, EOF only at its end, and then as soon as a read finds no more; waits only for a byte before the end that has not been received |
| Streams.ReadingFinishes | receive_stream.go:91-184 | once everything has arrived, one read that asks for enough delivers it and the next is told the end |
| Streams.EverythingArrives | send_stream.go:159-228 | once all that was written has been handed out with its FIN and every frame popped or cut again has arrived, all bytes have arrived and the end is known |
| Streams.MovesMean | send_stream.go:77-242 | what a write, a close, a popped frame and a delivery change, spelled out |
| Streams.SplitIsCut | internal/wire/stream_frame.go:147-168 | re-cutting a frame gives frames cut from the same string |
| FrameSorters.Run | frame_sorter.go:18-154 | after any run of successful pushes and pops the gaps are separated, non-empty and exactly the offsets never pushed, what was popped is a gapless string of pushed bytes at their places, and each pop returns data exactly if the next offset has been pushed; a run stops only at a frame that reaches the maximum offset or leaves too many gaps |
| FrameSorters.FrameSorter.Push | frame_sorter.go:27-143 | a successful push removes exactly its offsets from the gaps; the bug errors occur exactly for frames that reach the maximum offset; too many gaps leave the gap filled and the data unstored |
| FrameSorters.BugAtMaximum | frame_sorter.go:50-93 | a frame that ends at the maximum offset gets an internal error |
| FrameSorters.FrameSorter.Pop | frame_sorter.go:145-154 | returns the next chunk of what was pushed; none exactly if the next offset is missing |
| FrameSorters.PushFrom | frame_sorter.go:50-143 | the part of push behind the duplicate check keeps the chain of chunks that tiles each received block |
| FrameSorters.Fill | frame_sorter.go:95-142 | cutting, editing the gaps and storing keeps the tiling |
| FrameSorters.FindGap | frame_sorter.go:53-67 | finds the first gap the frame touches, or that there is none |
| FrameSorters.FindEndGap | frame_sorter.go:77-93 | finds the gap the frame ends in and drops the gaps and chunk ends it covers |
| FrameSorters.EditGaps | frame_sorter.go:103-129 | the four ways of editing gaps come to removing one interval |
| FrameSorters.PunchMissing | frame_sorter.go:35-143 | removing an interval from the gaps removes exactly its offsets |
| FrameSorters.ExactFilled | frame_sorter.go:35-143 | gaps that were exactly the offsets never pushed still are after a push |
| StreamFrames.MaxDataLenIsMaximal | internal/wire/stream_frame.go:125-143 | a frame with that much data fits if and only if its length field takes at most two bytes or is absent, and one more byte never fits |
| StreamFrames.SplitConserves | internal/wire/stream_frame.go:147-168 | both parts together carry the data and the FIN at the right offsets; the exact conditions for no split, for a size too small, for slicing beyond the data, for a first part that fits and for a remainder with data |
| StreamFrames.FullFrameTooLong | internal/wire/stream_frame.go:125-143 | a frame that MaxDataLen says fits into 20000 bytes and that does not |
| StreamFrames.SplitBeyondData | internal/wire/stream_frame.go:147-168 | a frame and a size for which the source slices beyond the data |
| StreamFrames.ParsesBack | internal/wire/stream_frame.go:22-104 | what is written is read back, with whatever follows a delimited frame |
| StreamFrames.ParseIs | internal/wire/stream_frame.go:22-75 | what bytes of any type are read as, bit by bit of the type; cut-off data and data beyond the maximum offset are refused |
| StreamFrames.ExampleBytes | internal/wire/stream_frame.go:78-104 | the fields and their order on an example |
| StreamFrames.Write | internal/wire/stream_frame.go:78-116 | as many bytes as Length says |
| VarInts.ReadsBack | internal/utils/varint.go:20-84 | reading what was written gives the number back, whatever follows |
| VarInts.ReadIs | internal/utils/varint.go:20-66 | what any bytes are read as, byte by byte, and when they are too few |
| VarInts.ReadsNoPart | internal/utils/varint.go:20-66 | a number that is cut off is not read |
| VarInts.WriteVarInt | internal/utils/varint.go:69-101 | as many bytes as VarIntLen says |
| VarInts.ReadBound | internal/utils/varint.go:20-66 | a number read never exceeds 62 bits |
| FlowControl.FlowControlSafety | internal/flowcontrol/base_flow_controller.go:36-122 | over a network that loses, repeats and reorders: no sender limit exceeds the credit granted on any stream or the connection, credit is never taken back, and no violation is ever reported |
| FlowControl.SenderGoesOn | internal/flowcontrol/base_flow_controller.go:36-122 | no sender stays blocked: in every run, once all that was sent has been read on a stream and on the connection, the updates that are due and their delivery let the sender of the stream go on |
| FlowControl.StepKeepsInv | internal/flowcontrol/stream_flow_controller.go:53-139 | every step of the protocol keeps the invariant at both levels |
| FlowControl.SendMeans | send_stream.go:204-228 | as much as was asked for is sent, or else all that both limits allow; nothing else changes but the network |
| FlowControl.DataMeans | internal/flowcontrol/stream_flow_controller.go:53-90 | data that arrives counts up to its end, at both levels, and its end is the final size exactly if it carries FIN |
| FlowControl.CreditMeans | internal/flowcontrol/base_flow_controller.go:50-54 | a limit that arrives replaces a lower one and nothing else |
| FlowControl.ReadingMeans | internal/flowcontrol/stream_flow_controller.go:92-102 | reading and abandoning give the same number of bytes back at both levels |
| FlowControl.SentKeepsInv | send_stream.go:204-228 | sending within the window of stream and connection keeps it |
| FlowControl.DeliveredKeepsInv | internal/flowcontrol/stream_flow_controller.go:53-90 | data sent within the window is accepted, whole or in part, late or repeated |
| FlowControl.CreditedKeepsInv | internal/flowcontrol/base_flow_controller.go:50-54 | a window update, late or repeated, keeps it |
| FlowControl.ReadKeepsInv | internal/flowcontrol/stream_flow_controller.go:92-96 | reading keeps it, with the same bytes credited to the connection |
| FlowControl.AbandonKeepsInv | internal/flowcontrol/stream_flow_controller.go:98-102 | abandoning a stream once credits exactly its unread bytes to the connection |
| FlowControl.StreamUpdateKeepsInv | internal/flowcontrol/stream_flow_controller.go:122-139 | giving stream credit, with auto-tuning, keeps it |
| FlowControl.ConnectionUpdateKeepsInv | internal/flowcontrol/connection_flow_controller.go:71-80 | giving connection credit keeps it |
| FlowControl.CreditGrows | internal/flowcontrol/base_flow_controller.go:84-113 | an update never lowers window or window size, if the maximum is at least the initial size |
| FlowControl.UpdateDueIff | internal/flowcontrol/base_flow_controller.go:76-80 | after credit was given in full, an update is due exactly once a quarter of the window has been read |
| FlowControl.CreditNeverDries | internal/flowcontrol/base_flow_controller.go:84-113 | once everything that may be sent has been read, a full window more is granted, at most doubled and exactly if it is tuned below its maximum |
| FlowControl.CreditKeptIff | internal/flowcontrol/base_flow_controller.go:84-113 | without that assumption, credit is kept if and only if no update is due, none is tuned, or the maximum covers the credit outstanding |
| FlowControl.CreditCanShrink | internal/flowcontrol/base_flow_controller.go:96-113 | a concrete window that shrinks |
| FlowControl.AcceptedWithinCredit | internal/flowcontrol/stream_flow_controller.go:53-90 | an offset within both windows and consistent with the final size is accepted |
| FlowControl.VerdictIff | internal/flowcontrol/stream_flow_controller.go:53-90 | both error cases of an offset as if-and-only-if, and what it changes at both levels |
| FlowControl.FlowController.IsNewlyBlocked | internal/flowcontrol/base_flow_controller.go:36-42 | reports exactly if blocked at an offset not reported before, and no offset twice |
| FlowControl.FlowController.AddBytesSent | internal/flowcontrol/base_flow_controller.go:44-46 | adds exactly the bytes, nothing else |
| FlowControl.FlowController.UpdateSendWindow | internal/flowcontrol/base_flow_controller.go:50-54 | the limit becomes the offset exactly if that is higher |
| FlowControl.FlowController.AddBytesRead | internal/flowcontrol/base_flow_controller.go:64-74 | counts the bytes and starts the first epoch |
| FlowControl.FlowController.MaybeAdjustWindowSize | internal/flowcontrol/base_flow_controller.go:96-113 | an epoch ends exactly if the RTT is known and more than half the window was read in it; the size is then doubled, up to the maximum, exactly if that was too fast; as the function the protocol proof is about |
| FlowControl.FlowController.GetWindowUpdate | internal/flowcontrol/base_flow_controller.go:84-92 | an update exactly if at most three quarters of the window size are left, and then a full window beyond what was read; as the function the protocol proof is about |
| FlowControl.FlowController.IncrementHighestReceived | internal/flowcontrol/connection_flow_controller.go:46-55 | adds up at connection level and reports a violation exactly beyond the window |
| FlowControl.FlowController.AddConnectionBytesRead | internal/flowcontrol/connection_flow_controller.go:57-69 | counts the bytes; an update is queued exactly if one is due |
| FlowControl.FlowController.EnsureMinimumWindowSize | internal/flowcontrol/connection_flow_controller.go:84-92 | raises the window size up to the maximum and starts an epoch |
| FlowControl.StreamFlowController.UpdateHighestReceived | internal/flowcontrol/stream_flow_controller.go:53-90 | refused exactly for its contradiction to the final size, or else exactly if it lies beyond the window of the stream or takes the connection beyond its own; the highest offset is kept at both levels; as the function the protocol proof is about |
| FlowControl.StreamFlowController.SendWindowSize | internal/flowcontrol/stream_flow_controller.go:109-111 | what both levels leave, nothing if one is used up, and never more than either leaves |
| FlowControl.StreamFlowController.AddBytesRead | internal/flowcontrol/stream_flow_controller.go:92-96 | counts on stream and connection; an update is queued for the stream exactly if one is due and the final offset is unknown, and for the connection exactly if one is due there |
| FlowControl.StreamFlowController.Abandon | internal/flowcontrol/stream_flow_controller.go:98-102 | credits exactly the unread bytes to the connection, and an update is queued for it exactly if there were any and one is due |
| FlowControl.StreamFlowController.GetWindowUpdate | internal/flowcontrol/stream_flow_controller.go:122-139 | nothing once the final offset is known; otherwise the stream update, and the connection window follows a grown stream window |
| Packing.PackRetransmission | packet_packer.go:189-257 | the frames are told apart with each kind in its order; the packets have the header of the connection and no ACK, fit, only their last STREAM frame has no length field, and each is left only when what comes next does not fit; without error they together carry the control frames and every stream byte and FIN in order; an error means a control frame too long for the packet to come: never if each fits a packet with the longest header, always if one does not fit a packet with the shortest |
| Packing.SplitIsInterleaved | packet_packer.go:190-203 | control frames and STREAM frames are told apart with none lost and each kind in its order |
| Packing.PackNext | packet_packer.go:210-254 | one sealed packet under its header, within the limit, that takes something from the list and is left only when what comes next does not fit; no packet only if the next control frame does not fit an empty one |
| Packing.PackOne | packet_packer.go:211-249 | control frames first, then stream data cut to the room, until what comes next does not fit; no frame at all only if the next control frame does not fit |
| Packing.TakeControlFrames | packet_packer.go:218-227 | as many as fit, in order: the first one left does not fit any more |
| Packing.TakeStreamFrames | packet_packer.go:229-249 | nothing lost, the frames fit once the last has lost its length field, it stops only when less is left than a STREAM frame should have, and the error of a frame too small is unreachable |
| Packing.TakeStreamFrame | packet_packer.go:229-246 | one frame, whole or cut so that it fills the packet |
| Packing.SplitKeepsUnits | internal/wire/stream_frame.go:147-168 | a split keeps every byte with its offset, and the FIN |
| Packing.SealFits | packet_packer.go:392-447 | a payload that fits the room is sealed under the given header and with the given ACK, reaches far enough for the header protection sample, and is padded only that far |
| Framers.Framer.AppendStreamFrames | framer.go:77-120 | one round over the active streams: frames come in the order of the queue, at most one of a stream, each starting where its stream stood; they fit although more room is pretended, and it stops only when all were asked or less room is left than a frame should have; every stream advances by exactly what its frame carries; whoever was asked and had something sends something; streams with data that are not blocked stay active |
| Framers.OncePerStream | framer.go:79-110 | frames that follow the order of a queue without repetitions are of different streams |
| Framers.Framer.PopFrom | framer.go:87-110 | the popped frame fits without its length field, and the stream goes to the back of the queue if it has more |
| Framers.PretendedRoom | framer.go:97-102 | popping into the room plus the length of its own length field leaves the frame within the room |
| Framers.Framer.AppendControlFrames | framer.go:51-66 | latest first, none lost, and it stops only at one that does not fit |
| Framers.Framer.AddActiveStream | framer.go:68-75 | the queue holds every active stream exactly once |
| Framers.Framer.QueueControlFrame | framer.go:45-49 | appends |
| PacketPackers.PacketPacker.PackPacket | packet_packer.go:261-301 | for every maximum from 1200 to 1452 and every ACK: the packet has the header of the connection and carries the ACK whole, it fits, so the too-large error is unreachable, and it is filled as far as control frames and streams go; the STREAM frames are one round over the active streams; streams and control frames lose exactly what the packet carries; nothing is sent only if there is no ACK, no control frame fits and no active stream had anything; after 19 packets with nothing but an ACK a PING is added, and only to an ACK |
| PacketPackers.PacketPacker.ComposeNextPacket | packet_packer.go:344-361 | ACK, control frames and STREAM frames together fit the room and are as many as fit, the STREAM frames one round over the active streams |
| PacketPackers.PacketPacker.CountAcks | packet_packer.go:287-298 | the counter of ACK-only packets, and the PING after 19 |
| PacketPackers.PacketPacker.Seal | packet_packer.go:392-447 | a payload that fits is sealed under its header and with its ACK |
| PacketNumbers.TruncationRoundTrip | internal/protocol/packet_number.go:27-81 | with the length chosen from the least unacked number, the peer decodes the number, given that it has received up to there and is not ahead by half an epoch |
| PacketNumbers.DecodesNear | internal/protocol/packet_number.go:27-54 | a number less than half an epoch from the one expected is decoded, for every length |
| PacketNumbers.DecodesClosest | internal/protocol/packet_number.go:27-54 | whatever is decoded has the low bytes that were sent, and no number that has them is closer to the one expected next |
| PacketNumbers.LengthForHeader | internal/protocol/packet_number.go:72-81 | the shortest of two to four bytes that keeps the distance to the least unacked number below half an epoch |
| OutgoingStreams.Run | streams_map_outgoing_generic.go:42-164 | in every interleaving the object ends in the state the specification gives for the steps: numbers are consecutive and within the highest limit named, every OpenStreamSync call was served at once, was served later or waits, waiting calls are served in order of arrival, only the head is ever woken, it is woken whenever a stream can be opened and then gets it, and limits are reported twice exactly in the one case of limit 0 |
| OutgoingStreams.StreamsMap.OpenStream | streams_map_outgoing_generic.go:42-56 | succeeds exactly if nobody waits and the limit allows |
| OutgoingStreams.StreamsMap.Enter | streams_map_outgoing_generic.go:58-72 | succeeds at once under the same condition, otherwise queues at the back and reports the limit unless that was done |
| OutgoingStreams.StreamsMap.Wake | streams_map_outgoing_generic.go:74-77 | a call receives exactly if its channel is full, and then it is the head |
| OutgoingStreams.StreamsMap.Resume | streams_map_outgoing_generic.go:78-90 | the woken call gets the next stream exactly if there is one, and exactly then wakes the next call |
| OutgoingStreams.StreamsMap.SetMaxStream | streams_map_outgoing_generic.go:144-154 | the limit only rises, and exactly then the head is woken and the limit may be reported again |
| OutgoingStreams.StreamsMap.MaybeSendBlockedFrame | streams_map_outgoing_generic.go:100-114 | at most one report per value of the limit |
| OutgoingStreams.StreamsMap.TakeNumber | streams_map_outgoing_generic.go:93-98 | the next number |
| OutgoingStreams.StreamsMap.UnblockOpenSync | streams_map_outgoing_generic.go:156-164 | a token for the head, unless it has one |
| OutgoingStreams.ReportedTwiceIff | streams_map_outgoing_generic.go:100-154 | reports are free of repetition if and only if not both a call was blocked before any limit was known and one while the limit was 0; only limit 0 can repeat |
| OutgoingStreams.HeadIsServed | streams_map_outgoing_generic.go:74-90 | a waiting head with a token is served by its own next steps if a stream can be opened |
| OutgoingStreams.LimitZeroTwice | streams_map_outgoing_generic.go:100-154 | a run that reports limit 0 twice |
| IncomingStreams.Run | streams_map_incoming_generic.go:54-159 | refines a model of three components (streams opened, streams accepted, deletions asked for): every answer, the streams in the map, the limits announced and the credit are functions of it, whatever the order of acceptance and deletion; streams are accepted as 1, 2, 3, ..., and streams plus credit add up to the maximum |
| IncomingStreams.StreamsMap.AcceptStream | streams_map_incoming_generic.go:54-81 | the next number exactly if that stream is open, and nothing else moves; one completed before is removed now, which never fails |
| IncomingStreams.StreamsMap.GetOrOpenStream | streams_map_incoming_generic.go:83-118 | opens exactly the streams up to the one asked for; refuses exactly beyond the limit; tells one that is gone |
| IncomingStreams.StreamsMap.RemoveStream | streams_map_incoming_generic.go:127-159 | the four outcomes; a real deletion raises the limit by exactly one |
| IncomingStreams.AcceptedInOrder | streams_map_incoming_generic.go:54-81 | the numbers accepted are 1, 2, 3, ... up to the number of streams accepted |
| IncomingStreams.DeleteHolds | streams_map_incoming_generic.go:127-159 | deleting in the maps is asking for deletion in the simple model |
| IncomingStreams.AcceptHolds | streams_map_incoming_generic.go:54-81 | accepting, with the removal of a stream completed before, is accepting in the simple model |
| IncomingStreams.StreamsMap.DeleteStream | streams_map_incoming_generic.go:120-125 | the four outcomes with their conditions and the exact new state |
| WindowedFilters.Run | internal/congestion/windowed_filter.go:65-128 | the estimates after each sample of any run: the best is the extremum of all samples since it was recorded and lies in the window, it is not forgotten while it is in the window, the other two move up when it goes and are renewed in part of a window while it stays, and while all samples are in the window it is the extremum of all |
| WindowedFilters.Remembers | internal/congestion/windowed_filter.go:65-119 | as long as the best estimate of an earlier point is in the window, the best one is at least as good |
| WindowedFilters.BestOfAll | internal/congestion/windowed_filter.go:65-119 | within the first window the best estimate is the extremum of everything submitted |
| WindowedFilters.WindowedFilter.Update | internal/congestion/windowed_filter.go:65-119 | estimates ordered one way and their times the other, the best within the window and unbeaten since it was recorded, never worse than an estimate still in the window; which of the old ones and the new sample each place goes to; second and third renewed after a quarter and a half |
| WindowedFilters.WindowedFilter.Insert | internal/congestion/windowed_filter.go:71-79 | a sample at least as good takes the places of second and third |
| WindowedFilters.WindowedFilter.Age | internal/congestion/windowed_filter.go:82-118 | what is too old gives way to what is newer |
| WindowedFilters.WindowedFilter.Reset | internal/congestion/windowed_filter.go:121-128 | all three become the sample |
| BandwidthSamplers.Run | internal/congestion/bandwidth_sampler.go:197-320 | in every run each packet counts once, as acked or as lost, with the size it was sent with; acked, lost and tracked bytes are folds over the events, and what was sent is what is acked, lost and tracked plus what was sent under a number still in use, which is nothing if packets are sent in the order of their numbers |
| BandwidthSamplers.BandwidthSampler.OnPacketSent | internal/congestion/bandwidth_sampler.go:197-222 | counts, opens a new slope if nothing is in flight, and records the totals of the moment unless the number is still in use; the exact new state, as for every operation of the sampler |
| BandwidthSamplers.BandwidthSampler.OnPacketAcked | internal/congestion/bandwidth_sampler.go:227-237 | a tracked packet is acked once; a sample exactly under the condition of SampleBounded, with the RTT of this packet, off the smaller of the two rates by less than a byte per second; no sample for any other |
| BandwidthSamplers.BandwidthSampler.OnPacketAckedInner | internal/congestion/bandwidth_sampler.go:241-297 | no difference is negative, the sample is bounded by the send and the ack rate from above and reaches the smaller of them, its RTT is the time since the packet was sent, and the first packet acked from after the app-limited mark is marked and ends the phase |
| BandwidthSamplers.BandwidthSampler.OnPacketLost | internal/congestion/bandwidth_sampler.go:301-312 | a tracked packet is lost once |
| BandwidthSamplers.BandwidthSampler.OnAppLimited | internal/congestion/bandwidth_sampler.go:317-320 | starts the phase at the last packet sent |
| BandwidthSamplers.SampleBounded | internal/congestion/bandwidth_sampler.go:241-297 | there is a sample exactly if a packet had been acked when this one was sent and time has passed since; it is one of the two rates, not above either, and where nothing wraps one byte per second more would be above one of them; the RTT is that of the packet |
| BandwidthSamplers.RateBound | internal/congestion/bandwidth.go:20-22 | a rate never promises more than the bytes counted, even where 64-bit arithmetic wraps around |
| BandwidthSamplers.RateTight | internal/congestion/bandwidth.go:20-22 | where nothing wraps it is off by less than one byte per second |
| BbrSenders.Run | internal/congestion/bbr_sender.go:259-346 | a trace of every run, each state the exact successor of the one before, with the real sampler and filter behind the bandwidth: the window is within its limits and at most the initial window plus what was acked, no STARTUP after full bandwidth, DRAIN and PROBE_BW only at full bandwidth, the pacing gain is that of the phase; each event sets window, round counter, full-bandwidth verdict, mode, recovery state and pacing gain by their rules; acked bytes are those the events acknowledge, with the sizes they were sent with; the window handed out at the end is exactly the one that GetCongestionWindow describes |
| BbrSenders.GrowsWithAcks | internal/congestion/bbr_sender.go:771-801 | between any two points of a run the window grows by no more than is acked in between, does not shrink before full bandwidth, and recovery is kept |
| BbrSenders.RoundsInARow | internal/congestion/bbr_sender.go:621-640 | at every point of a run the counter stands for that many rounds without growth in a row, none of them app-limited, with no growth in between or since |
| BbrSenders.FullAfterThree | internal/congestion/bbr_sender.go:621-652 | in every run, unless a loss may end STARTUP, full bandwidth has three such rounds behind it |
| BbrSenders.ObservingLearns | internal/congestion/bbr_sender.go:621-640 | full bandwidth is found exactly in a counted round without growth that is the third in a row or, if so configured, in recovery |
| BbrSenders.ObservingTurns | internal/congestion/bbr_sender.go:330-708 | the next mode exactly, from full bandwidth, the drained queue, the expired minimum and the stay in PROBE_RTT |
| BbrSenders.ObservingShifts | internal/congestion/bbr_sender.go:301-335 | full bandwidth and recovery are never unlearned, and recovery begins exactly with losses reported beside acknowledgements |
| BbrSenders.EventRecovers | internal/congestion/bbr_sender.go:517-553 | the exact recovery state, window and round after an event |
| BbrSenders.ObservingPaces | internal/congestion/bbr_sender.go:575-708 | the exact pacing gain after an event, from the mode it ends in and the phase |
| BbrSenders.CountingCounts | internal/congestion/bandwidth_sampler.go:241-320 | app-limited phases make no difference to what is counted |
| BbrSenders.BbrSender.OnCongestionEvent | internal/congestion/bbr_sender.go:301-346 | for arbitrary acked and lost lists and arbitrary estimates: the exact new state, the invariant, how the window moves, no shrinking before full bandwidth, recovery exactly after a loss and for good |
| BbrSenders.BbrSender.GetCongestionWindow | internal/congestion/bbr_sender.go:277-287 | in recovery the smaller of the two windows unless STARTUP is paced by rate, otherwise the congestion window; in PROBE_RTT four segments or, with that option, the share of the bandwidth-delay product; at least four segments in every mode |
| BbrSenders.BbrSender.OnPacketSent | internal/congestion/bbr_sender.go:259-271 | passes the packet on and notes the end of a quiescent period |
| BbrSenders.BbrSender.UpdateRoundTripCounter | internal/congestion/bbr_sender.go:423-433 | a round starts with the first ack beyond the last packet acked in the round before |
| BbrSenders.BbrSender.UpdateBandwidthOne | internal/congestion/bbr_sender.go:438-461 | every sample not app-limited is entered into the filter with its bandwidth and the round, any other only above the estimate, none of a packet that is passed over; whether the last sample was app-limited is noted; rounds start at 1 and do not go back |
| BbrSenders.BbrSender.UpdateModel | internal/congestion/bbr_sender.go:301-324 | losses, then the round, then the samples one by one, then recovery |
| BbrSenders.BbrSender.UpdateMode | internal/congestion/bbr_sender.go:326-338 | gain cycle, full bandwidth only at the start of a round, then the modes in their order |
| BbrSenders.BbrSender.DiscardLostPackets | internal/congestion/bbr_sender.go:503-515 | lost packets are no longer sampled |
| BbrSenders.BbrSender.UpdateRecoveryState | internal/congestion/bbr_sender.go:517-553 | entered exactly with a loss, with an empty recovery window and a round of its own, grows at the next round, and is never left; the end of recovery follows the last packet sent while there are no losses |
| BbrSenders.BbrSender.UpdateGainCyclePhase | internal/congestion/bbr_sender.go:575-607 | when the cycle advances, and the exact phase and pacing gain after it |
| BbrSenders.BbrSender.CheckIfFullBandwidthReached | internal/congestion/bbr_sender.go:621-640 | full bandwidth exactly after three rounds without a quarter of growth, app-limited rounds not counted |
| BbrSenders.BbrSender.EnterProbeBandwidthMode | internal/congestion/bbr_sender.go:654-668 | starts at the phase drawn, anywhere in the cycle but in the draining phase, with the gain of that phase |
| BbrSenders.BbrSender.MaybeExitStartupOrDrain | internal/congestion/bbr_sender.go:642-652 | the exact next mode and its pacing gain |
| BbrSenders.BbrSender.MaybeEnterOrExitProbeRtt | internal/congestion/bbr_sender.go:670-708 | entered exactly on an expired minimum outside quiescence, left exactly after its time and a round |
| BbrSenders.BbrSender.CalculateCongestionWindow | internal/congestion/bbr_sender.go:771-801 | limits, growth by at most what was acked, the exact window in each mode |
| BbrSenders.BbrSender.CalculateRecoveryWindow | internal/congestion/bbr_sender.go:803-834 | at least four segments and at least what is in flight plus what was acked; the exact window otherwise |

## Left out

- TLS, packet protection, header protection, tokens, version negotiation and stateless reset.
- The session's run loop, the client and server, the multiplexer, HTTP/3, logging: I/O and wiring.
- Alarm deadlines, RTT smoothing and pacing: times and RTT verdicts come in as parameters.
- Cubic, PRR and hybrid slow start, which the handler does not use.
- Initial and Handshake packets in the packer: the size theorems are about 1-RTT packets.
- Cancelling, resetting and deadlines of streams; closing of the stream maps.
- When an ACK is sent: the tracker's alarm and its counters of ack-eliciting packets; the contents of the ACK are modelled.
- HasMoreData of the frame sorter, which is not exact because covered chunks can stay in the map.
- SentPacketHandlers.SentPacketHandler.SentPacket: the handler works on the plain list of tracked packets that class SentPacketHistory implements, operation by operation, so a packet that is both in the history and in the queue is two equal values and not one object; the congestion controller is not called.
- SentPacketHandlers.SentPacketHandler.ReceivedAck: the loss delay and the numbers left out are parameters; RTT updates and the congestion event are not part of it (the lost packets handed to that event are none in any case, as internal/ackhandler/sent_packet_handler.go:267 declares the list anew).
- SentPacketRuns.Run: send times that do not go back with packet numbers, and a retransmission that carries what the dequeued packet carried and is sent before the next packet is dequeued, are demanded of the caller; an event that does not meet this is passed over.
- Streams.Transfer: a push that fails with too many gaps ends the run, as the source closes the connection.
- Streams.SendStream.Write: a call is one step up to the point where it waits; in Streams.Transfer the writer calls again only once the data of the call before has been handed out, which is when Write returns.
- FlowControl.FlowControlSafety: a stream is abandoned at most once and not read afterwards, as the interface demands; the factors 3/4 and 3/2 are exact fractions, rounded down.
- Packing.PackRetransmission: the AEAD overhead is 16 bytes, connection IDs have at most 18, and packet number lengths are those LengthForHeader gives; sealers and packet numbers that are not available are not modelled.
- Framers.Framer.AppendStreamFrames: what flow control lets each stream send is a parameter.
- PacketNumbers.TruncationRoundTrip: the largest number received is at least 0.
- BbrSenders.BbrSender.OnCongestionEvent: target windows, ack aggregation, the expiry of the minimal RTT and the random phase are arbitrary inputs; the growth target of 5/4 is exact; the pacing rate is not modelled.
- WindowedFilters.WindowedFilter.Update: the window length is not negative.
- OutgoingStreams.Run: the streams themselves and closing are not modelled; GetStream and DeleteStream only look up and remove.
- IncomingStreams.Run: GetOrOpenStream is one atomic step of a single caller.
