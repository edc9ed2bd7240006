/** PackPacket for 1-RTT packets (packet_packer.go): whatever the ACK, the control frames and the streams have to
    say, the packet fits. */
module PacketPackers {
  import opened Common
  import opened Bytes
  import opened VarInts
  import opened StreamFrames
  import opened Streams
  import opened Packing
  import opened Framers
  import AckFrames

  const MAX_NON_ACK_ELICITING_ACKS := 19
  const PING := ControlFrame(0, 1)

  datatype Outcome = NothingToSend | Sent(packet: Packet) | TooLargeBug

  lemma SizeOfNothing()
    ensures Size(Payload([], [])) == 0 && Reversed([]) == [] && StreamSize([]) == 0
  {
  }

  /** None of the active streams had anything to send. */
  ghost predicate AllSilent(active: set<nat>, start: map<nat, Progress>) {
    forall id :: id in active && id in start ==> start[id].silent
  }

  lemma NothingServed(active: set<nat>, streams: map<nat, SendStream>, start: map<nat, Progress>, limit: nat -> nat,
                      queue: seq<nat>, asked: nat)
    requires Round([], streams, start, limit, queue, asked) && asked == |queue| && Ids(queue) == active
    requires start.Keys <= streams.Keys
    ensures AllSilent(active, start)
  {
    assert queue[..asked] == queue;
  }

  /** A control frame is left behind only if the next one does not fit, and a stream is not asked only if there is less
      room than a STREAM frame should have. */
  ghost predicate Crowded(payload: Payload, ackLen: nat, room: nat, controls: seq<ControlFrame>, notAsked: int)
    requires AllSendable(payload.streams)
  {
    && (controls != [] ==> room < ackLen + ControlSize(payload.controls) + controls[|controls|-1].length)
    && (0 < notAsked ==> room < ackLen + Size(payload) + LastField(payload.streams) + MIN_STREAM_FRAME_SIZE)
  }

  /** What the ACK of a packet takes: nothing without one, otherwise what its encodable ranges take. */
  ghost predicate AckTakes(ack: Option<AckFrames.AckFrame>, ackLen: nat)
    requires ack.Some? ==> AckFrames.Writable(ack.value)
  {
    if ack == None then ackLen == 0
    else
      var n := AckFrames.NumEncodable(ack.value);
      0 < n <= |ack.value.ranges| && n <= 500 && ackLen == |AckFrames.Encode(ack.value, n)|
  }

  class PacketPacker {
    const framer: Framer
    const connIdLen: nat
    var maxPacketSize: nat
    var numNonAckElicitingAcks: nat

    ghost predicate Valid()
      reads this, framer
    {
      && connIdLen <= 18 && 1200 <= maxPacketSize <= 1452
      && numNonAckElicitingAcks <= MAX_NON_ACK_ELICITING_ACKS
      && framer.Valid()
    }

    constructor (connIdLen: nat, maxPacketSize: nat)
      requires connIdLen <= 18 && 1200 <= maxPacketSize <= 1452
      ensures Valid() && fresh(framer) && numNonAckElicitingAcks == 0
      ensures this.connIdLen == connIdLen && this.maxPacketSize == maxPacketSize
      ensures framer.controlFrames == [] && framer.streamQueue == []
    {
      framer := new Framer();
      this.connIdLen, this.maxPacketSize, numNonAckElicitingAcks := connIdLen, maxPacketSize, 0;
    }

    // AppendStreamFrames; if it yields nothing although there is room, no active stream had anything to send.
    method AppendStreams(maxLen: nat, streams: map<nat, SendStream>, limit: nat -> nat, newlyBlocked: nat -> bool)
      returns (fs: seq<StreamFrame>, length: nat, ghost asked: nat)
      requires framer.Valid() && StreamsOk(streams) && maxLen <= MAX_VAR_INT_2
      requires forall id :: limit(id) <= MAX_BYTE_COUNT
      modifies framer`streamQueue, framer`activeStreams
      modifies streams.Values`writeOffset, streams.Values`dataForWriting, streams.Values`finSent
      ensures framer.Valid() && StreamsOk(streams)
      ensures AllSendable(fs) && OnlyLastOpen(fs) && NoRepeats(StreamIds(fs))
      ensures StreamSize(fs) <= maxLen && length == StreamSize(fs) + LastField(fs)
      ensures Round(fs, streams, old(Standing(streams, limit)), limit, old(framer.streamQueue), asked)
      ensures StayActive(streams, newlyBlocked, old(framer.activeStreams), framer.activeStreams)
      ensures asked < |old(framer.streamQueue)| ==> maxLen < MIN_STREAM_FRAME_SIZE + length
      ensures fs == [] && MIN_STREAM_FRAME_SIZE <= maxLen ==>
                AllSilent(old(framer.activeStreams), old(Standing(streams, limit)))
    {
      ghost var queue, start := framer.streamQueue, Standing(streams, limit);
      assert start.Keys == streams.Keys && Ids(queue) == framer.activeStreams;
      SizeOfNothing();
      hide StreamsOk, Round, StayActive, Standing, AllSilent, StreamSize, AllSendable, OnlyLastOpen, Ids, NoRepeats;
      fs, length, asked := framer.AppendStreamFrames(maxLen, streams, limit, newlyBlocked);
      if fs == [] && MIN_STREAM_FRAME_SIZE <= maxLen {
        NothingServed(Ids(queue), streams, start, limit, queue, asked);
      }
    }

    /** composeNextPacket: the frames take no more than the room there is, although `length` may say so, and as many
        are taken as fit. */
    method ComposeNextPacket(ackLen: nat, room: nat, streams: map<nat, SendStream>, limit: nat -> nat,
                             newlyBlocked: nat -> bool)
      returns (payload: Payload, length: nat, ghost asked: nat)
      requires Valid() && StreamsOk(streams) && ackLen <= room <= MAX_VAR_INT_2
      requires forall id :: limit(id) <= MAX_BYTE_COUNT
      modifies framer, streams.Values`writeOffset, streams.Values`dataForWriting, streams.Values`finSent
      ensures Valid() && StreamsOk(streams)
      ensures AllSendable(payload.streams) && OnlyLastOpen(payload.streams) && NoRepeats(StreamIds(payload.streams))
      ensures ackLen + Size(payload) <= room && length == ackLen + Size(payload) + LastField(payload.streams)
      ensures old(framer.controlFrames) == framer.controlFrames + Reversed(payload.controls)
      ensures Round(payload.streams, streams, old(Standing(streams, limit)), limit, old(framer.streamQueue), asked)
      ensures StayActive(streams, newlyBlocked, old(framer.activeStreams), framer.activeStreams)
      ensures payload == Payload([], []) && ackLen + MIN_STREAM_FRAME_SIZE <= room ==>
                AllSilent(old(framer.activeStreams), old(Standing(streams, limit)))
      ensures Crowded(payload, ackLen, room, framer.controlFrames, |old(framer.streamQueue)| - asked)
    {
      EmptyTaken();
      SizeOfNothing();
      hide StreamsOk, Round, StayActive, Standing, AllSilent, Reversed, ControlSize, StreamSize, AllSendable;
      hide OnlyLastOpen, Ids, NoRepeats;
      var controls, controlLen := framer.AppendControlFrames(room - ackLen);
      var fs, streamLen;
      fs, streamLen, asked := AppendStreams(room - ackLen - controlLen, streams, limit, newlyBlocked);
      payload, length := Payload(controls, fs), ackLen + controlLen + streamLen;
    }

    /** A packet with nothing but an ACK gets a PING if 19 such packets were sent before it. */
    method CountAcks(payload: Payload, length: nat) returns (payload': Payload, length': nat)
      requires Valid() && AllSendable(payload.streams)
      modifies this`numNonAckElicitingAcks
      ensures Valid()
      ensures payload != Payload([], []) ==> payload' == payload && length' == length && numNonAckElicitingAcks == 0
      ensures payload == Payload([], []) && old(numNonAckElicitingAcks) < MAX_NON_ACK_ELICITING_ACKS ==>
                payload' == payload && length' == length && numNonAckElicitingAcks == old(numNonAckElicitingAcks) + 1
      ensures payload == Payload([], []) && old(numNonAckElicitingAcks) == MAX_NON_ACK_ELICITING_ACKS ==>
                payload' == Payload([PING], []) && length' == length + 1 && numNonAckElicitingAcks == 0
      ensures AllSendable(payload'.streams) && Size(payload') <= Size(payload) + 1 &&
                Size(payload') - Size(payload) == length' - length
      ensures payload != Payload([], []) ==> Size(payload') == Size(payload)
    {
      payload', length' := payload, length;
      if payload == Payload([], []) {
        if numNonAckElicitingAcks >= MAX_NON_ACK_ELICITING_ACKS {
          payload', length' := Payload([PING], []), length + PING.length;
          numNonAckElicitingAcks := 0;
        } else {
          numNonAckElicitingAcks := numNonAckElicitingAcks + 1;
        }
      } else {
        numNonAckElicitingAcks := 0;
      }
    }

    // The frames of a packet, and the room they were given.
    ghost predicate Fits(payload: Payload, ackLen: nat, length: nat, header: Header)
      reads this`maxPacketSize
    {
      && ShortHeader(header) && 1200 <= maxPacketSize
      && AllSendable(payload.streams) && OnlyLastOpen(payload.streams)
      && ackLen + Size(payload) <= Room(header, maxPacketSize)
      && ackLen + Size(payload) <= length && (payload.streams == [] ==> length == ackLen + Size(payload))
    }

    method Seal(header: Header, ackLen: nat, payload: Payload, length: nat) returns (r: Outcome)
      requires Fits(payload, ackLen, length, header)
      ensures r.Sent? && r.packet.payload == payload && Delimited(r.packet) && WellSized(r.packet, maxPacketSize)
      ensures r.packet.header == header && r.packet.ackLen == ackLen
    {
      SealFits(header, ackLen, payload, length, maxPacketSize);
      match WriteAndSeal(header, ackLen, payload, length, maxPacketSize) {
        case TooLarge => return TooLargeBug;
        case Sealed(p) => return Sent(p);
      }
    }

    /** PackPacket.  A packet is built whenever there is something to send, under the connection's header and with the
        whole ACK; it always fits and is filled as far as possible; and a run of packets that only carry ACKs is
        interrupted by a PING after 19 of them. */
    method PackPacket(ack: Option<AckFrames.AckFrame>, pnLen: nat, streams: map<nat, SendStream>, limit: nat -> nat,
                      newlyBlocked: nat -> bool)
      returns (r: Outcome, ghost asked: nat)
      requires Valid() && StreamsOk(streams) && 2 <= pnLen <= 4 && forall id :: limit(id) <= MAX_BYTE_COUNT
      requires ack.Some? ==> AckFrames.Writable(ack.value)
      modifies this`numNonAckElicitingAcks, framer
      modifies streams.Values`writeOffset, streams.Values`dataForWriting, streams.Values`finSent
      ensures Valid() && StreamsOk(streams)
      ensures r != TooLargeBug
      ensures r.NothingToSend? ==> AllSilent(old(framer.activeStreams), old(Standing(streams, limit)))
      ensures r.NothingToSend? ==>
                && ack == None && framer.controlFrames == old(framer.controlFrames)
                && Crowded(Payload([], []), 0, Room(Header(connIdLen, pnLen), maxPacketSize), framer.controlFrames, 0)
      ensures r.Sent? ==> Delimited(r.packet) && WellSized(r.packet, maxPacketSize)
      ensures r.Sent? ==> r.packet.header == Header(connIdLen, pnLen) && AckTakes(ack, r.packet.ackLen)
      ensures r.Sent? ==>
                (r.packet.payload == Payload([], []) <==> numNonAckElicitingAcks == old(numNonAckElicitingAcks) + 1)
      ensures r.Sent? && r.packet.payload != Payload([], []) ==> numNonAckElicitingAcks == 0
      ensures Round(if r.Sent? then r.packet.payload.streams else [], streams, old(Standing(streams, limit)), limit,
                    old(framer.streamQueue), asked)
      ensures r.Sent? ==> NoRepeats(StreamIds(r.packet.payload.streams))
      ensures StayActive(streams, newlyBlocked, old(framer.activeStreams), framer.activeStreams)
      ensures r.Sent? ==>
                Crowded(r.packet.payload, r.packet.ackLen, Room(Header(connIdLen, pnLen), maxPacketSize),
                        framer.controlFrames, |old(framer.streamQueue)| - asked)
      ensures r.Sent? ==>
                || old(framer.controlFrames) == framer.controlFrames + Reversed(r.packet.payload.controls)
                || (old(framer.controlFrames) == framer.controlFrames && r.packet.payload == Payload([PING], [])
                    && old(numNonAckElicitingAcks) == MAX_NON_ACK_ELICITING_ACKS && ack.Some?)
      ensures r.Sent? ==> ack.Some? || r.packet.payload != Payload([], [])
    {
      hide StreamsOk, Round, StayActive, Standing, AllSilent, Reversed, Size, Ids, NoRepeats, AllSendable, OnlyLastOpen;
      hide Delimited, WellSized, AckFrames.Writable, AckFrames.NumEncodable, AckFrames.Encode, Crowded;
      var header := Header(connIdLen, pnLen);
      var ackLen := 0;
      if ack.Some? {
        ackLen := AckFrames.Length(ack.value);
      }
      var room := Room(header, maxPacketSize);
      var payload, length;
      payload, length, asked := ComposeNextPacket(ackLen, room, streams, limit, newlyBlocked);
      SizeOfNothing();
      ghost var composed := payload;
      if payload == Payload([], []) && ack == None {
        CrowdedAnyway(ackLen, room, framer.controlFrames, |old(framer.streamQueue)| - asked);
        return NothingToSend, asked;
      }
      payload, length := CountAcks(payload, length);
      if composed == Payload([], []) {
        CrowdedAnyway(ackLen, room, framer.controlFrames, |old(framer.streamQueue)| - asked);
      }
      r := Seal(header, ackLen, payload, length);
    }
  }

  // A packet that is crowded without frames is crowded with a PING, and if it is not crowded for streams as well.
  lemma CrowdedAnyway(ackLen: nat, room: nat, controls: seq<ControlFrame>, notAsked: int)
    requires Crowded(Payload([], []), ackLen, room, controls, notAsked)
    ensures Crowded(Payload([], []), ackLen, room, controls, 0)
    ensures Crowded(Payload([PING], []), ackLen, room, controls, notAsked)
  {
  }
}
