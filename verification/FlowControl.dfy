/** Flow control (internal/flowcontrol): the controllers, and the credit protocol that two endpoints run with them.

    The clock decides whether auto-tuning doubles a window; that decision is a parameter here.  The two floating-point
    factors, three quarters and one and a half, are taken exactly and rounded down. */
module FlowControl {

  datatype Error = NoError | FinalSizeError | FlowControlError

  /** The fields of baseFlowController that both kinds of controller share. */
  datatype Window = Window(
    bytesSent: nat, sendWindow: nat, lastBlockedAt: nat,
    bytesRead: nat, highestReceived: nat, receiveWindow: nat, receiveWindowSize: nat, maxReceiveWindowSize: nat,
    epochStartOffset: nat)

  function Min(a: nat, b: nat): nat {
    if a < b then a else b
  }

  // ----- the operations on one window, as values

  function WindowLeft(w: Window): nat {
    if w.bytesSent > w.sendWindow then 0 else w.sendWindow - w.bytesSent
  }

  function WithSendWindow(w: Window, offset: nat): Window {
    if offset > w.sendWindow then w.(sendWindow := offset) else w
  }

  function WithBytesRead(w: Window, n: nat): Window {
    w.(epochStartOffset := if w.bytesRead == 0 then w.bytesRead else w.epochStartOffset, bytesRead := w.bytesRead + n)
  }

  // On unsigned 64-bit integers.
  function Difference(a: nat, b: nat): int {
    if b <= a then a - b else a + 0x1_0000_0000_0000_0000 - b
  }

  predicate HasWindowUpdate(w: Window) {
    Difference(w.receiveWindow, w.bytesRead) <= w.receiveWindowSize * 3 / 4
  }

  /** maybeAdjustWindowSize; `rttKnown` and `tooFast` are what the clock and the RTT estimate say. */
  function Adjusted(w: Window, rttKnown: bool, tooFast: bool): Window
    requires w.epochStartOffset <= w.bytesRead
  {
    if w.bytesRead - w.epochStartOffset <= w.receiveWindowSize / 2 || !rttKnown then w
    else w.(receiveWindowSize :=
        if tooFast then Min(2 * w.receiveWindowSize, w.maxReceiveWindowSize) else w.receiveWindowSize,
            epochStartOffset := w.bytesRead)
  }

  /** getWindowUpdate: the new window and the offset to announce, 0 if there is nothing to announce. */
  function WindowUpdate(w: Window, rttKnown: bool, tooFast: bool): (r: (Window, nat))
    requires w.epochStartOffset <= w.bytesRead <= w.receiveWindow
  {
    if !HasWindowUpdate(w) then (w, 0)
    else
      var a := Adjusted(w, rttKnown, tooFast);
      (a.(receiveWindow := a.bytesRead + a.receiveWindowSize), a.bytesRead + a.receiveWindowSize)
  }

  function WithMinimumSize(w: Window, inc: nat): Window {
    if inc > w.receiveWindowSize then
        w.(receiveWindowSize := Min(inc, w.maxReceiveWindowSize), epochStartOffset := w.bytesRead) else w
  }

  /** A window whose limits were sensible at construction: reading never overtakes receiving, receiving never
      overtakes the credit given, and auto-tuning has room. */
  ghost predicate Sound(w: Window) {
    && w.epochStartOffset <= w.bytesRead <= w.highestReceived <= w.receiveWindow
    && w.receiveWindowSize <= w.maxReceiveWindowSize
  }

  /** Credit is never taken back.  This needs the maximum window size to be no smaller than the initial one. */
  lemma CreditGrows(w: Window, rttKnown: bool, tooFast: bool)
    requires Sound(w)
    ensures var r := WindowUpdate(w, rttKnown, tooFast);
            && Sound(r.0)
            && w.receiveWindow <= r.0.receiveWindow && w.receiveWindowSize <= r.0.receiveWindowSize
            && (r.1 == 0 ==> r.0 == w || r.0.receiveWindow == 0) && (r.1 != 0 ==> r.1 == r.0.receiveWindow)
  {
  }

  /** After credit was last given at offset `given`, new credit is due exactly once a quarter of the window has been
      read. */
  lemma UpdateDueIff(w: Window, given: nat)
    requires given <= w.bytesRead <= w.receiveWindow == given + w.receiveWindowSize
    ensures HasWindowUpdate(w) <==> 4 * (w.bytesRead - given) >= w.receiveWindowSize
  {
  }

  /** Credit does not dry up: once everything that may be sent has been read, a full window more is granted, of at most
      twice the size before. */
  lemma CreditNeverDries(w: Window, rttKnown: bool, tooFast: bool)
    requires Sound(w) && 0 < w.receiveWindowSize && w.bytesRead == w.receiveWindow
    ensures var (w', offset) := WindowUpdate(w, rttKnown, tooFast);
            && offset == w'.receiveWindow == w.receiveWindow + w'.receiveWindowSize && w.receiveWindow < offset
            && w.receiveWindowSize <= w'.receiveWindowSize <= 2 * w.receiveWindowSize
            && (w.receiveWindowSize < w'.receiveWindowSize <==>
               Tunes(w, rttKnown, tooFast) && w.receiveWindowSize < w.maxReceiveWindowSize)
  {
  }

  // Auto-tuning changes the window size.
  predicate Tunes(w: Window, rttKnown: bool, tooFast: bool)
    requires w.epochStartOffset <= w.bytesRead
  {
    w.bytesRead - w.epochStartOffset > w.receiveWindowSize / 2 && rttKnown && tooFast
  }

  /** Without that assumption credit is kept if and only if no update is due, none is tuned, or the maximum still covers
      what the sender may have left. */
  lemma CreditKeptIff(w: Window, rttKnown: bool, tooFast: bool)
    requires w.epochStartOffset <= w.bytesRead <= w.receiveWindow
    ensures w.receiveWindow <= WindowUpdate(w, rttKnown, tooFast).0.receiveWindow <==>
            !HasWindowUpdate(w) || !Tunes(w, rttKnown, tooFast) ||
                w.receiveWindow - w.bytesRead <= w.maxReceiveWindowSize
  {
  }

  /** A window of 100 bytes with a maximum of 10 shrinks as soon as it is tuned. */
  lemma CreditCanShrink()
    ensures var w := Window(0, 0, 0, 60, 60, 100, 100, 10, 0);
            WindowUpdate(w, true, true).0.receiveWindow < w.receiveWindow
  {
  }

  // ----- receiving on a stream: both levels at once

  datatype Stream = Stream(w: Window, receivedFinalOffset: bool)

  /** UpdateHighestReceived: the new stream, the new connection window and the verdict. */
  function HighestReceived(s: Stream, conn: Window, offset: nat, final: bool): (r: (Stream, Window, Error)) {
    var high := s.w.highestReceived;
    if s.receivedFinalOffset && ((final && offset != high) || offset > high) then (s, conn, FinalSizeError)
    else
      var s' := if final then s.(receivedFinalOffset := true) else s;
      if offset == high then (s', conn, NoError)
      else if offset <= high then (s', conn, if final then FinalSizeError else NoError)
      else
        var s'' := s'.(w := s'.w.(highestReceived := offset));
        if offset > s.w.receiveWindow then (s'', conn, FlowControlError)
        else
          var conn' := conn.(highestReceived := conn.highestReceived + (offset - high));
          (s'', conn', if conn'.highestReceived > conn'.receiveWindow then FlowControlError else NoError)
  }

  /** The stream level of the bargain: an offset within both windows, consistent with the final size, is accepted. */
  lemma AcceptedWithinCredit(s: Stream, conn: Window, offset: nat, final: bool)
    requires offset <= s.w.receiveWindow
    requires offset > s.w.highestReceived ==>
              conn.highestReceived + (offset - s.w.highestReceived) <= conn.receiveWindow
    requires s.receivedFinalOffset ==> offset <= s.w.highestReceived && (final ==> offset == s.w.highestReceived)
    requires final ==> s.w.highestReceived <= offset
    ensures HighestReceived(s, conn, offset, final).2 == NoError
    ensures HighestReceived(s, conn, offset, final).0.w.highestReceived ==
              if offset > s.w.highestReceived then offset else s.w.highestReceived
  {
  }

  /** The final size is contradicted: by data beyond it, by data received beyond it, or by another final size. */
  predicate SizeContradicted(s: Stream, offset: nat, final: bool) {
    var high := s.w.highestReceived;
    || (s.receivedFinalOffset && offset > high)
    || (final && offset < high)
    || (s.receivedFinalOffset && final && offset != high)
  }

  /** What an offset changes, and when it is refused: for its contradiction to the final size, or else because it lies
      beyond the window of the stream or takes the connection beyond its own.  A refused offset still counts. */
  lemma VerdictIff(s: Stream, conn: Window, offset: nat, final: bool)
    ensures var high := s.w.highestReceived;
            var more := conn.highestReceived + (offset - high);
            var (s', conn', err) := HighestReceived(s, conn, offset, final);
            var size := SizeContradicted(s, offset, final);
            && (err == FinalSizeError <==> size)
            && (err == FlowControlError <==>
                !size && offset > high && (offset > s.w.receiveWindow || more > conn.receiveWindow))
            && s'.w == s.w.(highestReceived := if !size && offset > high then offset else high)
            && (s'.receivedFinalOffset <==> s.receivedFinalOffset || final)
            && conn' ==
               conn.(highestReceived :=
                       if !size && high < offset <= s.w.receiveWindow then more else conn.highestReceived)
  {
  }

  // ----- the protocol: one sending endpoint, one receiving endpoint, a network that loses, repeats and reorders

  datatype Message =
    | MaxData(offset: nat)
    | MaxStreamData(id: nat, offset: nat)
    | StreamData(id: nat, end: nat, fin: bool)

  /** A stream at the sender: what it sent, its limit, and whether it has sent its last byte. */
  datatype Sender = Sender(w: Window, finished: bool)

  /** A stream at the receiver; `credited` is how many of its bytes were given back to the connection. */
  datatype Receiver = Receiver(s: Stream, credited: nat, abandoned: bool)

  datatype System = System(
    sndConn: Window, snd: seq<Sender>,
    rcvConn: Window, rcv: seq<Receiver>,
    net: set<Message>)

  function TotalSent(ss: seq<Sender>): nat {
    if ss == [] then 0 else ss[0].w.bytesSent + TotalSent(ss[1..])
  }

  function TotalReceived(rs: seq<Receiver>): nat {
    if rs == [] then 0 else rs[0].s.w.highestReceived + TotalReceived(rs[1..])
  }

  function TotalCredited(rs: seq<Receiver>): nat {
    if rs == [] then 0 else rs[0].credited + TotalCredited(rs[1..])
  }

  ghost predicate StreamOk(s: Sender, r: Receiver) {
    && s.w.bytesSent <= s.w.sendWindow <= r.s.w.receiveWindow
    && Sound(r.s.w) && r.s.w.highestReceived <= s.w.bytesSent
    && (r.s.receivedFinalOffset ==> s.finished && r.s.w.highestReceived == s.w.bytesSent)
    && r.credited <= r.s.w.highestReceived && (!r.abandoned ==> r.credited == r.s.w.bytesRead)
  }

  ghost predicate MessageOk(y: System, m: Message) {
    match m
    case MaxData(offset) => offset <= y.rcvConn.receiveWindow
    case MaxStreamData(id, offset) => id < |y.rcv| && offset <= y.rcv[id].s.w.receiveWindow
    case StreamData(id, end, fin) =>
      id < |y.snd| && end <= y.snd[id].w.bytesSent && (fin ==> y.snd[id].finished && end == y.snd[id].w.bytesSent)
  }

  /** The invariant of the protocol, at stream level and at connection level. */
  ghost predicate Inv(y: System) {
    && |y.snd| == |y.rcv|
    && (forall i :: 0 <= i < |y.snd| ==> StreamOk(y.snd[i], y.rcv[i]))
    && y.sndConn.bytesSent == TotalSent(y.snd)
    && y.sndConn.bytesSent <= y.sndConn.sendWindow <= y.rcvConn.receiveWindow
    && y.rcvConn.highestReceived == TotalReceived(y.rcv)
    && y.rcvConn.bytesRead == TotalCredited(y.rcv)
    && Sound(y.rcvConn)
    && (forall m :: m in y.net ==> MessageOk(y, m))
  }

  lemma {:induction false} SentAt(ss: seq<Sender>, i: nat, s: Sender)
    requires i < |ss|
    ensures TotalSent(ss[i := s]) == TotalSent(ss) - ss[i].w.bytesSent + s.w.bytesSent
  {
    if i == 0 {
      assert ss[i := s][1..] == ss[1..];
    } else {
      assert ss[i := s][1..] == ss[1..][i-1 := s];
      SentAt(ss[1..], i-1, s);
    }
  }

  lemma {:induction false} TotalsAt(rs: seq<Receiver>, i: nat, r: Receiver)
    requires i < |rs|
    ensures TotalReceived(rs[i := r]) == TotalReceived(rs) - rs[i].s.w.highestReceived + r.s.w.highestReceived
    ensures TotalCredited(rs[i := r]) == TotalCredited(rs) - rs[i].credited + r.credited
  {
    if i == 0 {
      assert rs[i := r][1..] == rs[1..];
    } else {
      assert rs[i := r][1..] == rs[1..][i-1 := r];
      TotalsAt(rs[1..], i-1, r);
    }
  }

  // What the receiver has not got yet on all other streams, it has not got in sum.
  lemma {:induction false} TotalsOrdered(ss: seq<Sender>, rs: seq<Receiver>, i: nat)
    requires |ss| == |rs| && i < |ss|
    requires forall k :: 0 <= k < |ss| ==> rs[k].credited <= rs[k].s.w.highestReceived <= ss[k].w.bytesSent
    ensures TotalReceived(rs) - rs[i].s.w.highestReceived <= TotalSent(ss) - ss[i].w.bytesSent
    ensures TotalCredited(rs) - rs[i].credited <= TotalReceived(rs) - rs[i].s.w.highestReceived
  {
    if |ss| > 1 {
      assert forall k :: 0 <= k < |ss|-1 ==> ss[1..][k] == ss[k+1] && rs[1..][k] == rs[k+1];
      TotalsOrdered(ss[1..], rs[1..], if i == 0 then 0 else i-1);
    } else {
      assert ss[1..] == [] && rs[1..] == [];
    }
  }

  datatype Event =
    | Send(id: nat, n: nat, fin: bool)
    | DeliverData(m: Message, end: nat)      // the frame, or an initial part of it
    | DeliverCredit(m: Message)
    | Read(id: nat, n: nat)
    | Abandon(id: nat)
    | UpdateStream(id: nat, rttKnown: bool, tooFast: bool)
    | UpdateConnection(rttKnown: bool, tooFast: bool)

  // The sender takes at most what both windows allow (getDataForWriting).
  function Sent(y: System, id: nat, n: nat, fin: bool): System {
    if id >= |y.snd| || y.snd[id].finished then y
    else
      var s := y.snd[id];
      var k := Min(n, Min(WindowLeft(s.w), WindowLeft(y.sndConn)));
      var s' := Sender(s.w.(bytesSent := s.w.bytesSent + k), fin);
      y.(snd := y.snd[id := s'], sndConn := y.sndConn.(bytesSent := y.sndConn.bytesSent + k),
         net := y.net + {StreamData(id, s.w.bytesSent + k, fin)})
  }

  function Delivered(y: System, m: Message, end: nat): (System, Error) {
    if m !in y.net || !m.StreamData? || m.id >= |y.rcv| || end > m.end then (y, NoError)
    else
      var r := y.rcv[m.id];
      var (s, conn, err) := HighestReceived(r.s, y.rcvConn, end, m.fin && end == m.end);
      (y.(rcv := y.rcv[m.id := r.(s := s)], rcvConn := conn), err)
  }

  function Credited(y: System, m: Message): System {
    if m !in y.net then y
    else match m
      case MaxData(offset) => y.(sndConn := WithSendWindow(y.sndConn, offset))
      case MaxStreamData(id, offset) =>
        if id >= |y.snd| then y else y.(snd := y.snd[id := y.snd[id].(w := WithSendWindow(y.snd[id].w, offset))])
      case StreamData(_, _, _) => y
  }

  // AddBytesRead, of bytes that were received and not read before.
  function ReadFrom(y: System, id: nat, n: nat): System {
    if id >= |y.rcv| || y.rcv[id].abandoned || y.rcv[id].s.w.bytesRead + n > y.rcv[id].s.w.highestReceived then y
    else
      var r := y.rcv[id];
      y.(rcv := y.rcv[id := r.(s := r.s.(w := WithBytesRead(r.s.w, n)), credited := r.credited + n)],
         rcvConn := WithBytesRead(y.rcvConn, n))
  }

  // Abandon, once for each stream and with no reads after it.
  function Abandoned(y: System, id: nat): System {
    if id >= |y.rcv| || y.rcv[id].abandoned || y.rcv[id].s.w.bytesRead > y.rcv[id].s.w.highestReceived then y
    else
      var r := y.rcv[id];
      var unread := r.s.w.highestReceived - r.s.w.bytesRead;
      y.(rcv := y.rcv[id := r.(abandoned := true, credited := r.credited + unread)],
         rcvConn := if unread > 0 then WithBytesRead(y.rcvConn, unread) else y.rcvConn)
  }

  function StreamUpdated(y: System, id: nat, rttKnown: bool, tooFast: bool): System {
    if id >= |y.rcv| || y.rcv[id].s.receivedFinalOffset then y
    else
      var w := y.rcv[id].s.w;
      if !(w.epochStartOffset <= w.bytesRead <= w.receiveWindow) then y
      else
        var (w', offset) := WindowUpdate(w, rttKnown, tooFast);
        y.(rcv := y.rcv[id := y.rcv[id].(s := y.rcv[id].s.(w := w'))],
           rcvConn :=
               if w'.receiveWindowSize > w.receiveWindowSize then
                   WithMinimumSize(y.rcvConn, w'.receiveWindowSize * 3 / 2) else y.rcvConn,
           net := if offset == 0 then y.net else y.net + {MaxStreamData(id, offset)})
  }

  function ConnectionUpdated(y: System, rttKnown: bool, tooFast: bool): System {
    var w := y.rcvConn;
    if !(w.epochStartOffset <= w.bytesRead <= w.receiveWindow) then y
    else
      var (w', offset) := WindowUpdate(w, rttKnown, tooFast);
      y.(rcvConn := w', net := if offset == 0 then y.net else y.net + {MaxData(offset)})
  }

  function Step(y: System, e: Event): (System, Error) {
    match e
    case Send(id, n, fin) => (Sent(y, id, n, fin), NoError)
    case DeliverData(m, end) => Delivered(y, m, end)
    case DeliverCredit(m) => (Credited(y, m), NoError)
    case Read(id, n) => (ReadFrom(y, id, n), NoError)
    case Abandon(id) => (Abandoned(y, id), NoError)
    case UpdateStream(id, rttKnown, tooFast) => (StreamUpdated(y, id, rttKnown, tooFast), NoError)
    case UpdateConnection(rttKnown, tooFast) => (ConnectionUpdated(y, rttKnown, tooFast), NoError)
  }

  // Windows at the receiver only grow, and so does what the sender has sent: messages stay true.
  ghost predicate Grows(y: System, y': System) {
    && |y.snd| == |y'.snd| && |y.rcv| == |y'.rcv|
    && y.rcvConn.receiveWindow <= y'.rcvConn.receiveWindow
    && (forall i :: 0 <= i < |y.rcv| ==> y.rcv[i].s.w.receiveWindow <= y'.rcv[i].s.w.receiveWindow)
    && (forall i :: 0 <= i < |y.snd| ==>
          && y.snd[i].w.bytesSent <= y'.snd[i].w.bytesSent
          && (y.snd[i].finished ==> y'.snd[i].finished && y.snd[i].w.bytesSent == y'.snd[i].w.bytesSent))
  }

  lemma MessagesStay(y: System, y': System)
    requires Grows(y, y') && forall m :: m in y.net ==> MessageOk(y, m)
    ensures forall m :: m in y.net ==> MessageOk(y', m)
  {
  }

  lemma SentKeepsInv(y: System, id: nat, n: nat, fin: bool)
    requires Inv(y)
    ensures Inv(Sent(y, id, n, fin)) && Grows(y, Sent(y, id, n, fin))
  {
    var y' := Sent(y, id, n, fin);
    if id < |y.snd| && !y.snd[id].finished {
      assert StreamOk(y.snd[id], y.rcv[id]);
      SentAt(y.snd, id, y'.snd[id]);
      MessagesStay(y, y');
    }
  }

  /** A frame the sender was allowed to send never breaks the receiver's limits. */
  lemma DeliveredKeepsInv(y: System, m: Message, end: nat)
    requires Inv(y)
    ensures Delivered(y, m, end).1 == NoError
    ensures Inv(Delivered(y, m, end).0) && Grows(y, Delivered(y, m, end).0)
  {
    hide TotalSent, TotalReceived, TotalCredited;
    var y' := Delivered(y, m, end).0;
    if m in y.net && m.StreamData? && m.id < |y.rcv| && end <= m.end {
      var i, r := m.id, y.rcv[m.id];
      assert MessageOk(y, m) && StreamOk(y.snd[i], r);
      CreditSuffices(y, i, end);
      AcceptedWithinCredit(r.s, y.rcvConn, end, m.fin && end == m.end);
      TotalsAt(y.rcv, i, y'.rcv[i]);
      MessagesStay(y, y');
    }
  }

  lemma CreditSuffices(y: System, i: nat, end: nat)
    requires Inv(y) && i < |y.snd| && end <= y.snd[i].w.bytesSent
    ensures end <= y.rcv[i].s.w.receiveWindow
    ensures y.rcvConn.highestReceived + end - y.rcv[i].s.w.highestReceived <= y.rcvConn.receiveWindow
  {
    forall k | 0 <= k < |y.snd| ensures y.rcv[k].credited <= y.rcv[k].s.w.highestReceived <= y.snd[k].w.bytesSent {
      assert StreamOk(y.snd[k], y.rcv[k]);
    }
    TotalsOrdered(y.snd, y.rcv, i);
    assert StreamOk(y.snd[i], y.rcv[i]);
  }

  lemma CreditedKeepsInv(y: System, m: Message)
    requires Inv(y)
    ensures Inv(Credited(y, m)) && Grows(y, Credited(y, m))
  {
    var y' := Credited(y, m);
    if m in y.net {
      assert MessageOk(y, m);
      if m.MaxStreamData? && m.id < |y.snd| {
        assert StreamOk(y.snd[m.id], y.rcv[m.id]);
        SentAt(y.snd, m.id, y'.snd[m.id]);
      }
      MessagesStay(y, y');
    }
  }

  lemma ReadKeepsInv(y: System, id: nat, n: nat)
    requires Inv(y)
    ensures Inv(ReadFrom(y, id, n)) && Grows(y, ReadFrom(y, id, n))
  {
    var y' := ReadFrom(y, id, n);
    if id < |y.rcv| && !y.rcv[id].abandoned && y.rcv[id].s.w.bytesRead + n <= y.rcv[id].s.w.highestReceived {
      assert StreamOk(y.snd[id], y.rcv[id]);
      TotalsAt(y.rcv, id, y'.rcv[id]);
      CreditedOnlyReceived(y', id);
      MessagesStay(y, y');
    }
  }

  // Giving back no more than was received on each stream keeps the connection's count below what it received.
  lemma CreditedOnlyReceived(y: System, id: nat)
    requires |y.snd| == |y.rcv| && id < |y.rcv|
    requires forall i :: 0 <= i < |y.snd| && i != id ==> StreamOk(y.snd[i], y.rcv[i])
    requires y.rcv[id].credited <= y.rcv[id].s.w.highestReceived <= y.snd[id].w.bytesSent
    ensures TotalCredited(y.rcv) <= TotalReceived(y.rcv)
  {
    forall k | 0 <= k < |y.snd| ensures y.rcv[k].credited <= y.rcv[k].s.w.highestReceived <= y.snd[k].w.bytesSent {
      assert k != id ==> StreamOk(y.snd[k], y.rcv[k]);
    }
    TotalsOrdered(y.snd, y.rcv, id);
  }

  lemma AbandonKeepsInv(y: System, id: nat)
    requires Inv(y)
    ensures Inv(Abandoned(y, id)) && Grows(y, Abandoned(y, id))
  {
    var y' := Abandoned(y, id);
    if id < |y.rcv| && !y.rcv[id].abandoned {
      assert StreamOk(y.snd[id], y.rcv[id]);
      TotalsAt(y.rcv, id, y'.rcv[id]);
      CreditedOnlyReceived(y', id);
      MessagesStay(y, y');
    }
  }

  lemma StreamUpdateKeepsInv(y: System, id: nat, rttKnown: bool, tooFast: bool)
    requires Inv(y)
    ensures Inv(StreamUpdated(y, id, rttKnown, tooFast)) && Grows(y, StreamUpdated(y, id, rttKnown, tooFast))
  {
    hide TotalSent, TotalReceived, TotalCredited;
    var y' := StreamUpdated(y, id, rttKnown, tooFast);
    if id < |y.rcv| && !y.rcv[id].s.receivedFinalOffset {
      assert StreamOk(y.snd[id], y.rcv[id]);
      UpdatedWindow(y.rcv[id].s.w, rttKnown, tooFast);
      TotalsAt(y.rcv, id, y'.rcv[id]);
      MessagesStay(y, y');
    }
  }

  // An update touches the receive window, the window size and the epoch only.
  lemma UpdatedWindow(w: Window, rttKnown: bool, tooFast: bool)
    requires Sound(w)
    ensures var r := WindowUpdate(w, rttKnown, tooFast);
            && Sound(r.0) && w.receiveWindow <= r.0.receiveWindow && r.1 <= r.0.receiveWindow
            && r.0 ==
               w.(receiveWindow := r.0.receiveWindow, receiveWindowSize := r.0.receiveWindowSize, epochStartOffset :=
                   r.0.epochStartOffset)
  {
    CreditGrows(w, rttKnown, tooFast);
  }

  lemma ConnectionUpdateKeepsInv(y: System, rttKnown: bool, tooFast: bool)
    requires Inv(y)
    ensures Inv(ConnectionUpdated(y, rttKnown, tooFast)) && Grows(y, ConnectionUpdated(y, rttKnown, tooFast))
  {
    UpdatedWindow(y.rcvConn, rttKnown, tooFast);
    MessagesStay(y, ConnectionUpdated(y, rttKnown, tooFast));
  }

  lemma StepKeepsInv(y: System, e: Event)
    requires Inv(y)
    ensures Step(y, e).1 == NoError
    ensures Inv(Step(y, e).0) && Grows(y, Step(y, e).0)
  {
    match e
    case Send(id, n, fin) => SentKeepsInv(y, id, n, fin);
    case DeliverData(m, end) => DeliveredKeepsInv(y, m, end);
    case DeliverCredit(m) => CreditedKeepsInv(y, m);
    case Read(id, n) => ReadKeepsInv(y, id, n);
    case Abandon(id) => AbandonKeepsInv(y, id);
    case UpdateStream(id, rttKnown, tooFast) => StreamUpdateKeepsInv(y, id, rttKnown, tooFast);
    case UpdateConnection(rttKnown, tooFast) => ConnectionUpdateKeepsInv(y, rttKnown, tooFast);
  }

  /** The state after a run, and the first error the receiver reported. */
  function Run(y: System, es: seq<Event>): (System, Error)
    decreases |es|
  {
    if es == [] then (y, NoError)
    else
      var (y', err) := Step(y, es[0]);
      if err != NoError then (y', err) else Run(y', es[1..])
  }

  /** Before anything is sent: the receiver's limits are on their way as transport parameters. */
  ghost predicate Initial(y: System) {
    && |y.snd| == |y.rcv| && 0 == y.sndConn.bytesSent <= y.sndConn.sendWindow <= y.rcvConn.receiveWindow
    && y.rcvConn.epochStartOffset == y.rcvConn.bytesRead == y.rcvConn.highestReceived == 0
    && y.rcvConn.receiveWindowSize <= y.rcvConn.maxReceiveWindowSize
    && (forall i :: 0 <= i < |y.snd| ==> InitialStream(y.snd[i], y.rcv[i]))
    && (forall m :: m in y.net ==> !m.StreamData? && MessageOk(y, m))
  }

  ghost predicate InitialStream(s: Sender, r: Receiver) {
    && s.w.bytesSent == 0 && !s.finished && s.w.sendWindow <= r.s.w.receiveWindow
    && r.s.w.epochStartOffset == r.s.w.bytesRead == r.s.w.highestReceived == r.credited == 0
    && r.s.w.receiveWindowSize <= r.s.w.maxReceiveWindowSize
    && !r.s.receivedFinalOffset && !r.abandoned
  }

  lemma {:induction false} InitialTotals(ss: seq<Sender>, rs: seq<Receiver>)
    requires |ss| == |rs| && forall i :: 0 <= i < |ss| ==> InitialStream(ss[i], rs[i])
    ensures TotalSent(ss) == TotalReceived(rs) == TotalCredited(rs) == 0
  {
    if ss != [] {
      assert InitialStream(ss[0], rs[0]);
      assert forall k :: 0 <= k < |ss|-1 ==> ss[1..][k] == ss[k+1] && rs[1..][k] == rs[k+1];
      InitialTotals(ss[1..], rs[1..]);
    }
  }

  lemma InitialInv(y: System)
    requires Initial(y)
    ensures Inv(y)
  {
    InitialTotals(y.snd, y.rcv);
    forall i | 0 <= i < |y.snd| ensures StreamOk(y.snd[i], y.rcv[i]) {
      assert InitialStream(y.snd[i], y.rcv[i]);
    }
  }

  lemma {:induction false} RunKeepsInv(y: System, es: seq<Event>)
    requires Inv(y)
    ensures Run(y, es).1 == NoError && Inv(Run(y, es).0)
    ensures Grows(y, Run(y, es).0)
    decreases |es|
  {
    if es != [] {
      StepKeepsInv(y, es[0]);
      RunKeepsInv(Step(y, es[0]).0, es[1..]);
    }
  }

  /** Safety of flow control (section 4.1 of RFC 9000): in every run over a network that loses, repeats and reorders, no
      sender's limit ever exceeds what the receiver granted, on no stream and not on the connection; the receiver never
      takes credit back; and it never reports a violation. */
  lemma FlowControlSafety(y: System, es: seq<Event>)
    requires Initial(y)
    ensures var (z, err) := Run(y, es);
            && err == NoError
            && y.rcvConn.receiveWindow <= z.rcvConn.receiveWindow && z.sndConn.sendWindow <= z.rcvConn.receiveWindow
            && |z.snd| == |z.rcv| == |y.rcv|
            && forall i :: 0 <= i < |z.snd| ==>
                 z.snd[i].w.sendWindow <= z.rcv[i].s.w.receiveWindow &&
                     y.rcv[i].s.w.receiveWindow <= z.rcv[i].s.w.receiveWindow
  {
    InitialInv(y);
    RunKeepsInv(y, es);
    var z := Run(y, es).0;
    forall i | 0 <= i < |z.snd| ensures z.snd[i].w.sendWindow <= z.rcv[i].s.w.receiveWindow {
      assert StreamOk(z.snd[i], z.rcv[i]);
    }
  }

  /** Sending, spelled out: as much as was asked for goes out or else all that both limits allow, and nothing else
      changes but the network. */
  lemma SendMeans(y: System, e: Event)
    requires Inv(y) && e.Send? && e.id < |y.snd| && !y.snd[e.id].finished
    ensures var y' := Step(y, e).0;
            && |y'.snd| == |y.snd|
            && var s, s' := y.snd[e.id], y'.snd[e.id];
               var sent := s'.w.bytesSent - s.w.bytesSent;
               && 0 <= sent <= e.n && s'.w.bytesSent <= s.w.sendWindow
               && y'.sndConn == y.sndConn.(bytesSent := y.sndConn.bytesSent + sent)
               && y'.sndConn.bytesSent <= y.sndConn.sendWindow
               && (sent == e.n || s'.w.bytesSent == s.w.sendWindow || y'.sndConn.bytesSent == y.sndConn.sendWindow)
               && s' == Sender(s.w.(bytesSent := s'.w.bytesSent), e.fin)
               && y' == y.(snd := y.snd[e.id := s'], sndConn := y'.sndConn,
                           net := y.net + {StreamData(e.id, s'.w.bytesSent, e.fin)})
  {
    hide TotalSent, TotalReceived, TotalCredited, MessageOk;
    assert StreamOk(y.snd[e.id], y.rcv[e.id]);
  }

  /** Delivery of data, spelled out: it counts up to its end, at both levels. */
  lemma DataMeans(y: System, e: Event)
    requires Inv(y) && e.DeliverData? && e.m in y.net && e.m.StreamData? && e.end <= e.m.end
    ensures var y' := Step(y, e).0;
            && e.m.id < |y.rcv| == |y'.rcv|
            && var w, w' := y.rcv[e.m.id].s.w, y'.rcv[e.m.id].s.w;
               && w' == w.(highestReceived := if e.end > w.highestReceived then e.end else w.highestReceived)
               && (y'.rcv[e.m.id].s.receivedFinalOffset <==>
                   y.rcv[e.m.id].s.receivedFinalOffset || (e.m.fin && e.end == e.m.end))
               && y'.rcvConn == y.rcvConn.(highestReceived :=
                    y.rcvConn.highestReceived + (w'.highestReceived - w.highestReceived))
  {
    hide TotalSent, TotalReceived, TotalCredited, HighestReceived;
    assert MessageOk(y, e.m);
    assert StreamOk(y.snd[e.m.id], y.rcv[e.m.id]);
    VerdictIff(y.rcv[e.m.id].s, y.rcvConn, e.end, e.m.fin && e.end == e.m.end);
    StepKeepsInv(y, e);
  }

  /** Delivery of credit, spelled out: a limit rises to the offset or stays, and nothing else changes. */
  lemma CreditMeans(y: System, e: Event)
    requires e.DeliverCredit? && e.m in y.net
    ensures e.m.MaxData? ==>
              Step(y, e).0 == y.(sndConn := y.sndConn.(sendWindow :=
                if e.m.offset > y.sndConn.sendWindow then e.m.offset else y.sndConn.sendWindow))
    ensures e.m.MaxStreamData? && e.m.id < |y.snd| ==>
              var w := y.snd[e.m.id].w;
              Step(y, e).0 == y.(snd := y.snd[e.m.id := y.snd[e.m.id].(w := w.(sendWindow :=
                if e.m.offset > w.sendWindow then e.m.offset else w.sendWindow))])
  {
  }

  /** Reading and abandoning, spelled out: they give the same number of bytes back at both levels. */
  lemma ReadingMeans(y: System, e: Event)
    requires Inv(y) && (e.Read? || e.Abandon?) && e.id < |y.rcv| && !y.rcv[e.id].abandoned
    ensures var y' := Step(y, e).0;
            var r, r' := y.rcv[e.id], y'.rcv[e.id];
            && (e.Read? && r.s.w.bytesRead + e.n <= r.s.w.highestReceived ==>
                && |y'.rcv| == |y.rcv| && r'.s.w.bytesRead == r.s.w.bytesRead + e.n
                && r'.credited == r.credited + e.n && y'.rcvConn.bytesRead == y.rcvConn.bytesRead + e.n)
            && (e.Abandon? ==>
                && |y'.rcv| == |y.rcv| && r'.abandoned && r'.credited == r.s.w.highestReceived
                && y'.rcvConn.bytesRead == y.rcvConn.bytesRead + (r.s.w.highestReceived - r.s.w.bytesRead))
  {
    hide TotalSent, TotalReceived, TotalCredited, MessageOk;
    assert StreamOk(y.snd[e.id], y.rcv[e.id]);
  }

  // ----- credit gets through

  /** The sender knows the limits, or they are on their way: the network keeps what was sent until it is delivered. */
  ghost predicate Announced(y: System) {
    && |y.snd| == |y.rcv|
    && (y.sndConn.sendWindow == y.rcvConn.receiveWindow || MaxData(y.rcvConn.receiveWindow) in y.net)
    && (forall i :: 0 <= i < |y.snd| ==> StreamAnnounced(y, i))
  }

  ghost predicate StreamAnnounced(y: System, i: nat)
    requires i < |y.snd| == |y.rcv|
  {
    || y.snd[i].w.sendWindow == y.rcv[i].s.w.receiveWindow
    || MaxStreamData(i, y.rcv[i].s.w.receiveWindow) in y.net
  }

  // Credit within the limits only moves the sender's limit towards them.
  lemma CreditedTowards(w: Window, offset: nat, limit: nat)
    requires w.sendWindow <= limit && offset <= limit
    ensures WithSendWindow(w, offset).sendWindow == (if offset > w.sendWindow then offset else w.sendWindow)
    ensures w.sendWindow == limit ==> WithSendWindow(w, offset) == w
  {
  }

  // An update announces the window it makes, unless the window stays.
  lemma UpdateAnnounces(w: Window, rttKnown: bool, tooFast: bool)
    requires Sound(w)
    ensures var r := WindowUpdate(w, rttKnown, tooFast);
            r.0.receiveWindow == w.receiveWindow || (r.1 == r.0.receiveWindow && r.1 != 0)
  {
  }

  // Limits that stay, and messages that stay, leave everything announced.
  lemma StaysAnnounced(y: System, y': System)
    requires Announced(y) && |y'.snd| == |y'.rcv| == |y.snd| && y.net <= y'.net
    requires y'.rcvConn.receiveWindow == y.rcvConn.receiveWindow && y'.sndConn.sendWindow == y.sndConn.sendWindow
    requires forall i :: 0 <= i < |y.snd| ==>
               && y'.snd[i].w.sendWindow == y.snd[i].w.sendWindow
               && y'.rcv[i].s.w.receiveWindow == y.rcv[i].s.w.receiveWindow
    ensures Announced(y')
  {
    forall i | 0 <= i < |y.snd| ensures StreamAnnounced(y', i) {
      assert StreamAnnounced(y, i);
    }
  }

  lemma CreditKeepsAnnounced(y: System, m: Message)
    requires Inv(y) && Announced(y)
    ensures Announced(Credited(y, m))
  {
    hide TotalSent, TotalReceived, TotalCredited;
    var y' := Credited(y, m);
    if m in y.net {
      assert MessageOk(y, m);
      forall i | 0 <= i < |y.snd| ensures StreamAnnounced(y', i) {
        assert StreamAnnounced(y, i) && StreamOk(y.snd[i], y.rcv[i]);
      }
    }
  }

  lemma UpdatesKeepAnnounced(y: System, id: nat, rttKnown: bool, tooFast: bool)
    requires Inv(y) && Announced(y)
    ensures Announced(StreamUpdated(y, id, rttKnown, tooFast)) && Announced(ConnectionUpdated(y, rttKnown, tooFast))
  {
    hide TotalSent, TotalReceived, TotalCredited, WindowUpdate;
    UpdateAnnounces(y.rcvConn, rttKnown, tooFast);
    var y', y'' := StreamUpdated(y, id, rttKnown, tooFast), ConnectionUpdated(y, rttKnown, tooFast);
    forall i | 0 <= i < |y.snd| ensures StreamAnnounced(y', i) && StreamAnnounced(y'', i) {
      assert StreamAnnounced(y, i) && StreamOk(y.snd[i], y.rcv[i]);
      UpdateAnnounces(y.rcv[i].s.w, rttKnown, tooFast);
    }
  }

  lemma StepKeepsAnnounced(y: System, e: Event)
    requires Inv(y) && Announced(y)
    ensures Announced(Step(y, e).0)
  {
    hide Inv, Announced, HighestReceived, Credited, StreamUpdated, ConnectionUpdated;
    SameLength(y);
    match e
    case DeliverCredit(m) => CreditKeepsAnnounced(y, m);
    case UpdateStream(id, rttKnown, tooFast) => UpdatesKeepAnnounced(y, id, rttKnown, tooFast);
    case UpdateConnection(rttKnown, tooFast) => UpdatesKeepAnnounced(y, 0, rttKnown, tooFast);
    case DeliverData(m, end) =>
      if m.StreamData? && m.id < |y.rcv| {
        VerdictIff(y.rcv[m.id].s, y.rcvConn, end, m.fin && end == m.end);
      }
      StaysAnnounced(y, Step(y, e).0);
    case _ => StaysAnnounced(y, Step(y, e).0);
  }

  lemma SameLength(y: System)
    requires Announced(y)
    ensures |y.snd| == |y.rcv|
  {
  }

  lemma {:induction false} RunKeepsAnnounced(y: System, es: seq<Event>)
    requires Inv(y) && Announced(y)
    ensures Announced(Run(y, es).0)
    decreases |es|
  {
    if es != [] {
      StepKeepsInv(y, es[0]);
      StepKeepsAnnounced(y, es[0]);
      RunKeepsAnnounced(Step(y, es[0]).0, es[1..]);
    }
  }

  // What is left once an update has been made if one was due.
  lemma PlentyLeft(w: Window, rttKnown: bool, tooFast: bool)
    requires Sound(w)
    ensures 3 * w.receiveWindowSize <= 4 * (WindowUpdate(w, rttKnown, tooFast).0.receiveWindow - w.bytesRead)
  {
  }

  /** Both updates, and then the delivery of what they announce. */
  function Refilled(y: System, i: nat, rttKnown: bool, tooFast: bool): System
    requires i < |y.rcv|
  {
    var a := StreamUpdated(y, i, rttKnown, tooFast);
    var b := ConnectionUpdated(a, rttKnown, tooFast);
    Credited(Credited(b, MaxStreamData(i, b.rcv[i].s.w.receiveWindow)), MaxData(b.rcvConn.receiveWindow))
  }

  lemma DeliveryTellsStream(y: System, i: nat)
    requires Inv(y) && Announced(y) && i < |y.snd|
    ensures var y' := Credited(y, MaxStreamData(i, y.rcv[i].s.w.receiveWindow));
            && y' == y.(snd := y.snd[i := y.snd[i].(w := y.snd[i].w.(sendWindow := y.rcv[i].s.w.receiveWindow))])
  {
    assert StreamAnnounced(y, i) && StreamOk(y.snd[i], y.rcv[i]);
    assert y.snd[i := y.snd[i]] == y.snd;
    if MaxStreamData(i, y.rcv[i].s.w.receiveWindow) in y.net {
      CreditedTowards(y.snd[i].w, y.rcv[i].s.w.receiveWindow, y.rcv[i].s.w.receiveWindow);
    }
  }

  lemma DeliveryTellsConnection(y: System)
    requires Inv(y) && Announced(y)
    ensures Credited(y, MaxData(y.rcvConn.receiveWindow)) ==
              y.(sndConn := y.sndConn.(sendWindow := y.rcvConn.receiveWindow))
  {
  }

  /** The sender of stream i may go on by three quarters of both windows, and sends as much as it wants to or as the two
      limits leave. */
  ghost predicate GoesOn(y: System, z: System, i: nat, n: nat) {
    && i < |z.snd| == |y.snd| == |y.rcv|
    && var left, connLeft := z.snd[i].w.sendWindow - y.snd[i].w.bytesSent, z.sndConn.sendWindow - y.sndConn.bytesSent;
    && 4 * left >= 3 * y.rcv[i].s.w.receiveWindowSize && 4 * connLeft >= 3 * y.rcvConn.receiveWindowSize
    && Sent(z, i, n, false).snd[i].w.bytesSent == y.snd[i].w.bytesSent + Min(n, Min(left, connLeft))
  }

  lemma RefillLets(y: System, i: nat, n: nat, rttKnown: bool, tooFast: bool)
    requires Inv(y) && Announced(y) && i < |y.snd| && !y.snd[i].finished
    requires y.rcv[i].s.w.bytesRead == y.snd[i].w.bytesSent && y.rcvConn.bytesRead == y.sndConn.bytesSent
    ensures GoesOn(y, Refilled(y, i, rttKnown, tooFast), i, n)
  {
    hide Inv, Announced, StreamUpdated, ConnectionUpdated, Credited;
    SameLength(y);
    var a := StreamUpdated(y, i, rttKnown, tooFast);
    StepKeepsInv(y, UpdateStream(i, rttKnown, tooFast));
    StepKeepsAnnounced(y, UpdateStream(i, rttKnown, tooFast));
    UpdatedStream(y, i, rttKnown, tooFast);
    var b := ConnectionUpdated(a, rttKnown, tooFast);
    StepKeepsInv(a, UpdateConnection(rttKnown, tooFast));
    StepKeepsAnnounced(a, UpdateConnection(rttKnown, tooFast));
    UpdatedConnection(a, rttKnown, tooFast);
    var m := MaxStreamData(i, b.rcv[i].s.w.receiveWindow);
    DeliveryTellsStream(b, i);
    StepKeepsInv(b, DeliverCredit(m));
    StepKeepsAnnounced(b, DeliverCredit(m));
    DeliveryTellsConnection(Credited(b, m));
  }

  // What an update leaves alone.
  lemma UpdatedStream(y: System, i: nat, rttKnown: bool, tooFast: bool)
    requires Inv(y) && i < |y.snd| && !y.snd[i].finished
    ensures var y' := StreamUpdated(y, i, rttKnown, tooFast);
            && y'.snd == y.snd && y'.sndConn == y.sndConn && |y'.rcv| == |y.rcv|
            && 4 * (y'.rcv[i].s.w.receiveWindow - y.rcv[i].s.w.bytesRead) >= 3 * y.rcv[i].s.w.receiveWindowSize
            && y'.rcvConn.bytesRead == y.rcvConn.bytesRead
            && y'.rcvConn.receiveWindowSize >= y.rcvConn.receiveWindowSize
  {
    assert StreamOk(y.snd[i], y.rcv[i]);
    PlentyLeft(y.rcv[i].s.w, rttKnown, tooFast);
  }

  lemma UpdatedConnection(y: System, rttKnown: bool, tooFast: bool)
    requires Inv(y)
    ensures var y' := ConnectionUpdated(y, rttKnown, tooFast);
            && y'.snd == y.snd && y'.sndConn == y.sndConn && y'.rcv == y.rcv
            && 4 * (y'.rcvConn.receiveWindow - y.rcvConn.bytesRead) >= 3 * y.rcvConn.receiveWindowSize
  {
    PlentyLeft(y.rcvConn, rttKnown, tooFast);
  }

  /** No sender stays blocked: in every run, once all that was sent has been read, on a stream and on the connection,
      the two updates and their delivery let the sender of the stream go on. */
  lemma SenderGoesOn(y0: System, es: seq<Event>, i: nat, n: nat, rttKnown: bool, tooFast: bool)
    requires Initial(y0) && Announced(y0) && i < |y0.snd|
    requires var y := Run(y0, es).0;
             && |y.snd| == |y.rcv| == |y0.snd| && !y.snd[i].finished
             && y.rcv[i].s.w.bytesRead == y.snd[i].w.bytesSent && y.rcvConn.bytesRead == y.sndConn.bytesSent
    ensures GoesOn(Run(y0, es).0, Refilled(Run(y0, es).0, i, rttKnown, tooFast), i, n)
  {
    hide Initial, Run, GoesOn, Refilled, Inv, Announced;
    InitialInv(y0);
    RunKeepsInv(y0, es);
    RunKeepsAnnounced(y0, es);
    RefillLets(Run(y0, es).0, i, n, rttKnown, tooFast);
  }

  // ----- the controllers

  class FlowController {
    var bytesSent: nat
    var sendWindow: nat
    var lastBlockedAt: nat
    var bytesRead: nat
    var highestReceived: nat
    var receiveWindow: nat
    var receiveWindowSize: nat
    const maxReceiveWindowSize: nat
    var epochStartOffset: nat

    ghost var reported: seq<nat>   // the offsets IsNewlyBlocked has reported

    function View(): Window
      reads this
    {
      Window(bytesSent, sendWindow, lastBlockedAt, bytesRead, highestReceived, receiveWindow, receiveWindowSize,
          maxReceiveWindowSize, epochStartOffset)
    }

    /** Reported offsets increase, and the last one is remembered. */
    ghost predicate Valid()
      reads this
    {
      && lastBlockedAt <= sendWindow
      && (forall i, j :: 0 <= i < j < |reported| ==> reported[i] < reported[j])
      && (if reported == [] then lastBlockedAt == 0 else lastBlockedAt == reported[|reported|-1])
    }

    constructor (window: nat, maxWindow: nat, initialSendWindow: nat)
      ensures Valid() && reported == []
      ensures View() == Window(0, initialSendWindow, 0, 0, 0, window, window, maxWindow, 0)
    {
      bytesSent, sendWindow, lastBlockedAt, bytesRead, highestReceived := 0, initialSendWindow, 0, 0, 0;
      receiveWindow, receiveWindowSize, maxReceiveWindowSize, epochStartOffset := window, window, maxWindow, 0;
      reported := [];
    }

    /** For every offset it reports being blocked at most once. */
    method IsNewlyBlocked() returns (blocked: bool, offset: nat)
      requires Valid()
      modifies this`lastBlockedAt, this`reported
      ensures Valid()
      ensures blocked <==> bytesSent >= sendWindow && sendWindow != old(lastBlockedAt)
      ensures blocked ==> offset == sendWindow && offset !in old(reported) && reported == old(reported) + [offset]
      ensures !blocked ==> reported == old(reported) && lastBlockedAt == old(lastBlockedAt)
    {
      if WindowLeft(View()) != 0 || sendWindow == lastBlockedAt {
        return false, 0;
      }
      lastBlockedAt := sendWindow;
      reported := reported + [sendWindow];
      return true, sendWindow;
    }

    method AddBytesSent(n: nat)
      requires Valid()
      modifies this`bytesSent
      ensures Valid() && View() == old(View()).(bytesSent := old(bytesSent) + n)
    {
      bytesSent := bytesSent + n;
    }

    method UpdateSendWindow(offset: nat)
      requires Valid()
      modifies this`sendWindow
      ensures Valid() && View() == WithSendWindow(old(View()), offset)
      ensures sendWindow == if offset > old(sendWindow) then offset else old(sendWindow)
    {
      if offset > sendWindow {
        sendWindow := offset;
      }
    }

    method StartNewAutoTuningEpoch()
      modifies this`epochStartOffset
      ensures epochStartOffset == bytesRead
    {
      epochStartOffset := bytesRead;
    }

    method AddBytesRead(n: nat)
      modifies this`bytesRead, this`epochStartOffset
      ensures View() == WithBytesRead(old(View()), n)
      ensures bytesRead == old(bytesRead) + n
      ensures epochStartOffset == if old(bytesRead) == 0 then 0 else old(epochStartOffset)
    {
      if bytesRead == 0 {
        StartNewAutoTuningEpoch();
      }
      bytesRead := bytesRead + n;
    }

    method MaybeAdjustWindowSize(rttKnown: bool, tooFast: bool)
      requires epochStartOffset <= bytesRead
      modifies this`receiveWindowSize, this`epochStartOffset
      ensures View() == Adjusted(old(View()), rttKnown, tooFast)
      ensures var ends := rttKnown && 2 * (bytesRead - old(epochStartOffset)) > old(receiveWindowSize);
              && epochStartOffset == (if ends then bytesRead else old(epochStartOffset))
              && receiveWindowSize == (if !ends || !tooFast then old(receiveWindowSize)
                                       else if 2 * old(receiveWindowSize) < maxReceiveWindowSize then
                                         2 * old(receiveWindowSize)
                                       else maxReceiveWindowSize)
    {
      var bytesReadInEpoch := bytesRead - epochStartOffset;
      if bytesReadInEpoch <= receiveWindowSize / 2 {
        return;
      }
      if !rttKnown {
        return;
      }
      if tooFast {
        receiveWindowSize := Min(2 * receiveWindowSize, maxReceiveWindowSize);
      }
      StartNewAutoTuningEpoch();
    }

    method GetWindowUpdate(rttKnown: bool, tooFast: bool) returns (offset: nat)
      requires epochStartOffset <= bytesRead <= receiveWindow
      modifies this`receiveWindow, this`receiveWindowSize, this`epochStartOffset
      ensures (View(), offset) == WindowUpdate(old(View()), rttKnown, tooFast)
      ensures var due := 4 * (old(receiveWindow) - bytesRead) <= 3 * old(receiveWindowSize);
              && offset == (if due then bytesRead + receiveWindowSize else 0)
              && receiveWindow == (if due then offset else old(receiveWindow))
              && (!due ==> receiveWindowSize == old(receiveWindowSize) && epochStartOffset == old(epochStartOffset))
    {
      if !HasWindowUpdate(View()) {
        return 0;
      }
      MaybeAdjustWindowSize(rttKnown, tooFast);
      receiveWindow := bytesRead + receiveWindowSize;
      return receiveWindow;
    }

    predicate CheckFlowControlViolation()
      reads this
    {
      highestReceived > receiveWindow
    }

    /** At connection level. */
    method IncrementHighestReceived(increment: nat) returns (err: Error)
      modifies this`highestReceived
      ensures View() == old(View()).(highestReceived := old(highestReceived) + increment)
      ensures err == if highestReceived > receiveWindow then FlowControlError else NoError
    {
      highestReceived := highestReceived + increment;
      if CheckFlowControlViolation() {
        return FlowControlError;
      }
      return NoError;
    }

    /** AddBytesRead at connection level; `queued` says that a window update is due. */
    method AddConnectionBytesRead(n: nat) returns (queued: bool)
      modifies this`bytesRead, this`epochStartOffset
      ensures View() == WithBytesRead(old(View()), n) && (queued <==> HasWindowUpdate(View()))
    {
      AddBytesRead(n);
      queued := HasWindowUpdate(View());
    }

    /** At connection level. */
    method EnsureMinimumWindowSize(inc: nat)
      modifies this`receiveWindowSize, this`epochStartOffset
      ensures View() == WithMinimumSize(old(View()), inc)
      ensures inc <= old(receiveWindowSize) ==>
                receiveWindowSize == old(receiveWindowSize) && epochStartOffset == old(epochStartOffset)
      ensures inc > old(receiveWindowSize) ==>
                && epochStartOffset == bytesRead
                && receiveWindowSize == if inc < maxReceiveWindowSize then inc else maxReceiveWindowSize
    {
      if inc > receiveWindowSize {
        receiveWindowSize := Min(inc, maxReceiveWindowSize);
        StartNewAutoTuningEpoch();
      }
    }
  }

  class StreamFlowController {
    const base: FlowController
    const connection: FlowController
    var receivedFinalOffset: bool

    constructor (base: FlowController, connection: FlowController)
      requires base != connection
      ensures this.base == base && this.connection == connection && !receivedFinalOffset
    {
      this.base, this.connection, receivedFinalOffset := base, connection, false;
    }

    function View(): Stream
      reads this, base
    {
      Stream(base.View(), receivedFinalOffset)
    }

    method UpdateHighestReceived(offset: nat, final: bool) returns (err: Error)
      requires base != connection
      modifies this, base`highestReceived, connection`highestReceived
      ensures (View(), connection.View(), err) == HighestReceived(old(View()), old(connection.View()), offset, final)
      ensures var high, size := old(base.highestReceived), SizeContradicted(old(View()), offset, final);
              var more := old(connection.highestReceived) + (offset - high);
              && (err == FinalSizeError <==> size)
              && (err == FlowControlError <==>
                  !size && offset > high && (offset > base.receiveWindow || more > connection.receiveWindow))
              && base.highestReceived == (if !size && offset > high then offset else high)
              && connection.highestReceived ==
                  (if !size && high < offset <= base.receiveWindow then more else old(connection.highestReceived))
              && (receivedFinalOffset <==> old(receivedFinalOffset) || final)
    {
      VerdictIff(View(), connection.View(), offset, final);
      if receivedFinalOffset {
        if final && offset != base.highestReceived {
          return FinalSizeError;
        }
        if offset > base.highestReceived {
          return FinalSizeError;
        }
      }
      if final {
        receivedFinalOffset := true;
      }
      if offset == base.highestReceived {
        return NoError;
      }
      if offset <= base.highestReceived {
        if final {
          return FinalSizeError;
        }
        return NoError;
      }
      var increment := offset - base.highestReceived;
      base.highestReceived := offset;
      if base.CheckFlowControlViolation() {
        return FlowControlError;
      }
      err := connection.IncrementHighestReceived(increment);
    }

    /** SendWindowSize: what both levels leave, nothing if one of them is used up. */
    function SendWindowSize(): (r: nat)
      reads base, connection
      ensures base.bytesSent + r <= base.sendWindow || r == 0
      ensures connection.bytesSent + r <= connection.sendWindow || r == 0
      ensures base.bytesSent <= base.sendWindow && connection.bytesSent <= connection.sendWindow ==>
                base.bytesSent + r == base.sendWindow || connection.bytesSent + r == connection.sendWindow
    {
      Min(WindowLeft(base.View()), WindowLeft(connection.View()))
    }

    /** `queued` says that a window update for the stream is due, `connectionQueued` that one for the connection is. */
    method AddBytesRead(n: nat) returns (queued: bool, connectionQueued: bool)
      requires base != connection
      modifies base, connection
      ensures base.View() == WithBytesRead(old(base.View()), n) &&
                connection.View() == WithBytesRead(old(connection.View()), n)
      ensures queued <==> !receivedFinalOffset && HasWindowUpdate(base.View())
      ensures connectionQueued <==> HasWindowUpdate(connection.View())
    {
      base.AddBytesRead(n);
      queued := !receivedFinalOffset && HasWindowUpdate(base.View());
      connectionQueued := connection.AddConnectionBytesRead(n);
    }

    /** What was received on the stream and never read counts as read on the connection. */
    method Abandon() returns (connectionQueued: bool)
      requires base != connection && base.bytesRead <= base.highestReceived
      modifies connection
      ensures connection.View() == if base.highestReceived > base.bytesRead
                then WithBytesRead(old(connection.View()), base.highestReceived - base.bytesRead)
                else old(connection.View())
      ensures connectionQueued <==> base.highestReceived > base.bytesRead && HasWindowUpdate(connection.View())
    {
      connectionQueued := false;
      var unread := base.highestReceived - base.bytesRead;
      if unread > 0 {
        connectionQueued := connection.AddConnectionBytesRead(unread);
      }
    }

    method GetWindowUpdate(rttKnown: bool, tooFast: bool) returns (offset: nat)
      requires base != connection && base.epochStartOffset <= base.bytesRead <= base.receiveWindow
      modifies base, connection
      ensures receivedFinalOffset ==>
                offset == 0 && base.View() == old(base.View()) && connection.View() == old(connection.View())
      ensures !receivedFinalOffset ==>
                && (base.View(), offset) == WindowUpdate(old(base.View()), rttKnown, tooFast)
                && connection.View() == if base.receiveWindowSize > old(base.receiveWindowSize)
                                        then WithMinimumSize(old(connection.View()), base.receiveWindowSize * 3 / 2)
                                            else old(connection.View())
    {
      if receivedFinalOffset {
        return 0;
      }
      var oldWindowSize := base.receiveWindowSize;
      offset := base.GetWindowUpdate(rttKnown, tooFast);
      if base.receiveWindowSize > oldWindowSize {
        connection.EnsureMinimumWindowSize(base.receiveWindowSize * 3 / 2);
      }
    }
  }
}
