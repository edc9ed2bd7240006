/** The BBR congestion controller (internal/congestion/bbr_sender.go): its windows and its modes.

    Estimates that rest on floating-point gains, on round-trip times or on random numbers come in as arbitrary values
    with each event (datatype Env), so what is proved holds whatever they are.  The sampler and the bandwidth filter
    are the real ones. */
module BbrSenders {
  import opened Common
  import opened BandwidthSamplers
  import opened WindowedFilters

  const MSS := 1460
  const MIN_CONGESTION_WINDOW := 4 * MSS
  const MAX_OUTGOING_PACKET_SIZE := 1452
  const BANDWIDTH_WINDOW_SIZE := 10
  const ROUNDS_WITHOUT_GROWTH := 3
  const PROBE_RTT_TIME := 200_000_000
  const GAIN_CYCLE := [1250, 750, 1000, 1000, 1000, 1000, 1000, 1000]   // per mille
  const HIGH_GAIN := 2885
  const DRAIN_GAIN := 347   // 1 / 2.885, rounded

  datatype Mode = Startup | Drain | ProbeBw | ProbeRtt
  datatype Recovery = NotInRecovery | Conservation | Growth

  datatype PacketInfo = PacketInfo(pn: nat, length: nat)

  /** Fixed options of a sender. */
  datatype Config = Config(initialWindow: nat, maxWindow: nat, rateBasedStartup: bool, exitStartupOnLoss: bool,
                           drainToTarget: bool, probeRttBasedOnBdp: bool, ackAggregationDuringStartup: bool,
                           alwaysGetBwSample: bool)

  predicate Sensible(c: Config) {
    MIN_CONGESTION_WINDOW <= c.initialWindow <= c.maxWindow
  }

  /** What an event finds: the scaled bandwidth-delay product for the gains 1, cwnd gain, pacing gain and 0.75, the
      bytes in flight, the ack aggregation measured, the verdict on the minimal RTT, and a random number. */
  datatype Env = Env(now: int, bytesInFlight: nat, drainTarget: nat, windowTarget: nat, gainTarget: nat,
                     probeRttTarget: nat, ackHeight: nat, excessAcked: nat, minRttExpired: bool, rttPassed: bool,
                     random: nat)

  function Max(a: nat, b: nat): nat {
    if a > b then a else b
  }

  function Min(a: nat, b: nat): nat {
    if a < b then a else b
  }

  /** GetTargetCongestionWindow on a scaled product. */
  function Target(scaled: nat): (r: nat)
    ensures MIN_CONGESTION_WINDOW <= r && scaled <= r && (r == scaled || r == MIN_CONGESTION_WINDOW)
  {
    Max(scaled, MIN_CONGESTION_WINDOW)
  }

  // Conversions between signed and unsigned 64-bit integers.
  function ToSigned(x: nat): int {
    if x < 0x8000_0000_0000_0000 then x else x - TWO_64
  }

  function ToUnsigned(x: int): int {
    if x < 0 then x + TWO_64 else x
  }

  /** The window after an event that acknowledged some bytes. */
  function NextWindow(c: Config, window: nat, bytesAcked: nat, totalAcked: nat, mode: Mode, full: bool, env: Env): nat {
    if mode == ProbeRtt then window
    else
      var extra := if full then env.ackHeight else if c.ackAggregationDuringStartup then env.excessAcked else 0;
      var target := Target(env.windowTarget) + extra;
      var w := if full then Min(target, window + bytesAcked)
               else if window < target || totalAcked < c.initialWindow then window + bytesAcked
               else window;
      Min(Max(w, MIN_CONGESTION_WINDOW), c.maxWindow)
  }

  lemma NextWindowGrows(c: Config, window: nat, bytesAcked: nat, totalAcked: nat, mode: Mode, full: bool, env: Env)
    requires MIN_CONGESTION_WINDOW <= window <= c.maxWindow
    ensures NextWindow(c, window, bytesAcked, totalAcked, mode, full, env) <= window + bytesAcked
  {
  }

  function TotalLength(ps: seq<PacketInfo>): nat {
    if ps == [] then 0 else TotalLength(ps[..|ps|-1]) + ps[|ps|-1].length
  }

  // ----- what a sender passes on to its sampler

  // Packets without bytes in flight are passed over.
  predicate Skipped(c: Config, p: PacketInfo) {
    !c.alwaysGetBwSample && p.length == 0
  }

  function Losses(lost: seq<PacketInfo>): seq<Event> {
    if lost == [] then [] else Losses(lost[..|lost|-1]) + [Lost(lost[|lost|-1].pn)]
  }

  function Acks(c: Config, now: int, acked: seq<PacketInfo>): seq<Event> {
    if acked == [] then []
    else
      var p := acked[|acked|-1];
      Acks(c, now, acked[..|acked|-1]) + if Skipped(c, p) then [] else [Acked(now, p.pn)]
  }

  /** The events without those that only begin an app-limited phase, which count no bytes. */
  function Counting(es: seq<Event>): seq<Event> {
    if es == [] then [] else Counting(es[..|es|-1]) + if es[|es|-1].AppLimited? then [] else [es[|es|-1]]
  }

  lemma CountingPush(es: seq<Event>, e: Event)
    ensures Counting(es + [e]) == Counting(es) + if e.AppLimited? then [] else [e]
  {
    assert (es + [e])[..|es|] == es;
  }

  lemma {:induction false} CountingConcat(a: seq<Event>, b: seq<Event>)
    requires forall i :: 0 <= i < |b| ==> !b[i].AppLimited?
    ensures Counting(a + b) == Counting(a) + b
  {
    if b == [] {
      assert a + b == a;
    } else {
      var front, last := b[..|b|-1], b[|b|-1];
      CountingConcat(a, front);
      assert a + b == (a + front) + [last];
      CountingPush(a + front, last);
    }
  }

  lemma {:induction false} LossesCount(lost: seq<PacketInfo>)
    ensures forall i :: 0 <= i < |Losses(lost)| ==> !Losses(lost)[i].AppLimited?
  {
    if lost != [] {
      LossesCount(lost[..|lost|-1]);
    }
  }

  lemma {:induction false} AcksCount(c: Config, now: int, acked: seq<PacketInfo>)
    ensures forall i :: 0 <= i < |Acks(c, now, acked)| ==> !Acks(c, now, acked)[i].AppLimited?
  {
    if acked != [] {
      AcksCount(c, now, acked[..|acked|-1]);
    }
  }

  lemma LossesPush(lost: seq<PacketInfo>, i: nat)
    requires i < |lost|
    ensures Losses(lost[..i+1]) == Losses(lost[..i]) + [Lost(lost[i].pn)]
  {
    assert lost[..i+1][..i] == lost[..i];
  }

  lemma AcksPush(c: Config, now: int, acked: seq<PacketInfo>, i: nat)
    requires i < |acked|
    ensures Acks(c, now, acked[..i+1]) == Acks(c, now, acked[..i]) +
              if Skipped(c, acked[i]) then [] else [Acked(now, acked[i].pn)]
  {
    assert acked[..i+1][..i] == acked[..i];
  }

  /** Phases that are app-limited make no difference to what is counted. */
  lemma {:induction false} CountingCounts(es: seq<Event>)
    ensures AckedBytes(Counting(es)) == AckedBytes(es) && SizesAfter(Counting(es)) == SizesAfter(es)
  {
    if es != [] {
      var front, last := es[..|es|-1], es[|es|-1];
      CountingCounts(front);
      OneMore(front, last);
      OneMore(Counting(front), last);
      assert es == front + [last];
      assert Counting(front) + [] == Counting(front);
    }
  }

  // ----- the state of a sender, as a value, and what each step makes of it

  datatype Control = Control(mode: Mode, roundTripCount: nat, lastSendPacket: nat, currentRoundTripEnd: nat,
                             congestionWindow: nat, pacingGain: nat, cycleCurrentOffset: nat, isAtFullBandwidth: bool,
                             roundsWithoutBandwidthGain: nat, bandwidthAtLastRound: int, exitingQuiescence: bool,
                             exitProbeRttAt: Option<int>, probeRttRoundPassed: bool, recoveryState: Recovery,
                             endRecoveryAt: nat, recoveryWindow: nat)

  /** What bandwidth samples go through: the sampler, the filter, and whether the last one was app-limited. */
  datatype Feed = Feed(sampling: Sampling, estimates: Estimates, appLimited: bool)

  datatype State = State(control: Control, feed: Feed)

  function Bandwidth(e: Estimates): int {
    ToUnsigned(e.best.sample)
  }

  function Discarded(s: Sampling, lost: seq<PacketInfo>): Sampling {
    if lost == [] then s else After(Discarded(s, lost[..|lost|-1]), Lost(lost[|lost|-1].pn))
  }

  /** The filter takes in every sample but those that are app-limited and below the estimate. */
  function FedOne(c: Config, round: nat, now: int, f: Feed, p: PacketInfo): Feed {
    if Skipped(c, p) then f
    else
      var s := SampleOf(f.sampling, now, p.pn);
      var g := f.(sampling := After(f.sampling, Acked(now, p.pn)));
      if c.alwaysGetBwSample && !s.stateAtSend.isValid then g
      else
        var taken := !s.stateAtSend.isAppLimited || s.bandwidth > Bandwidth(f.estimates);
        Feed(g.sampling,
             if taken then
               Updated(MaxFilter, BANDWIDTH_WINDOW_SIZE, f.estimates, Sample(ToSigned(s.bandwidth), round))
             else f.estimates,
             s.stateAtSend.isAppLimited)
  }

  function Fed(c: Config, round: nat, now: int, f: Feed, acked: seq<PacketInfo>): Feed {
    if acked == [] then f else FedOne(c, round, now, Fed(c, round, now, f, acked[..|acked|-1]), acked[|acked|-1])
  }

  /** A round ends with the first ACK beyond the packets that were out when it began. */
  predicate EndsRound(s: Control, pn: nat) {
    s.currentRoundTripEnd == 0 || pn > s.currentRoundTripEnd
  }

  predicate RoundStarts(s: Control, acked: seq<PacketInfo>) {
    acked != [] && EndsRound(s, acked[|acked|-1].pn)
  }

  function Counted(s: Control, pn: nat): Control {
    if EndsRound(s, pn) then s.(currentRoundTripEnd := pn, roundTripCount := s.roundTripCount + 1) else s
  }

  /** Recovery is entered with a loss and never left. */
  function Recovering(s: Control, hasLosses: bool, isRoundStart: bool): Control {
    var t := if hasLosses then s else s.(endRecoveryAt := s.lastSendPacket);
    match s.recoveryState
    case NotInRecovery =>
      if hasLosses then
        t.(recoveryState := Conservation, recoveryWindow := 0, currentRoundTripEnd := s.lastSendPacket)
      else t
    case Conservation => if isRoundStart then t.(recoveryState := Growth) else t
    case Growth => t
  }

  /** The model of the connection after an event. */
  function Modelled(c: Config, s: State, env: Env, acked: seq<PacketInfo>, lost: seq<PacketInfo>): State {
    var f := s.feed.(sampling := Discarded(s.feed.sampling, lost));
    if acked == [] then s.(feed := f)
    else
      var t := Counted(s.control, acked[|acked|-1].pn);
      State(Recovering(t, lost != [], RoundStarts(s.control, acked)), Fed(c, t.roundTripCount, env.now, f, acked))
  }

  /** The window handed out: the smaller of the two in recovery, unless STARTUP is paced by rate; in PROBE_RTT four
      segments or, with that option, three quarters of the bandwidth-delay product if that is more. */
  predicate HandsOut(c: Config, s: Control, env: Env, r: nat) {
    var recovering := s.recoveryState != NotInRecovery && !(c.rateBasedStartup && s.mode == Startup);
    if s.mode == ProbeRtt then
      r == if c.probeRttBasedOnBdp && env.probeRttTarget > 4 * 1460 then env.probeRttTarget else 4 * 1460
    else if recovering then
      && r <= s.congestionWindow && r <= s.recoveryWindow && (r == s.congestionWindow || r == s.recoveryWindow)
    else r == s.congestionWindow
  }

  /** A phase of high gain lasts until the target is reached or packets are lost; one of low gain ends as soon as
      the queue is drained. */
  predicate MovesOn(gain: nat, env: Env, priorInFlight: nat, hasLosses: bool) {
    if gain < 1000 && env.bytesInFlight <= Target(env.drainTarget) then true
    else if gain > 1000 && !hasLosses && priorInFlight < Target(env.gainTarget) then false
    else env.rttPassed
  }

  function Cycled(c: Config, s: Control, env: Env, priorInFlight: nat, hasLosses: bool): Control {
    if !MovesOn(s.pacingGain, env, priorInFlight, hasLosses) then s
    else
      var next := (s.cycleCurrentOffset + 1) % 8;
      var t := s.(cycleCurrentOffset := next);
      if c.drainToTarget && s.pacingGain < 1000 && GAIN_CYCLE[next] == 1000
         && env.bytesInFlight > Target(env.drainTarget) then t
      else t.(pacingGain := GAIN_CYCLE[next])
  }

  /** A round counts if its last sample is not app-limited: with 25% growth it sets the mark for the next rounds. */
  function Measured(c: Config, s: Control, appLimited: bool, bandwidth: int): Control {
    if appLimited then s
    else if bandwidth >= s.bandwidthAtLastRound * 5 / 4 then
      s.(bandwidthAtLastRound := bandwidth, roundsWithoutBandwidthGain := 0)
    else
      var rounds := s.roundsWithoutBandwidthGain + 1;
      s.(roundsWithoutBandwidthGain := rounds,
         isAtFullBandwidth := s.isAtFullBandwidth || rounds >= ROUNDS_WITHOUT_GROWTH
                              || (c.exitStartupOnLoss && s.recoveryState != NotInRecovery))
  }

  function Probing(s: Control, env: Env): Control {
    var offset := if env.random % 7 == 0 then 0 else env.random % 7 + 1;
    s.(mode := ProbeBw, cycleCurrentOffset := offset, pacingGain := GAIN_CYCLE[offset])
  }

  function Exited(s: Control, env: Env): Control {
    var t := if s.mode == Startup && s.isAtFullBandwidth then s.(mode := Drain, pacingGain := DRAIN_GAIN) else s;
    if t.mode == Drain && env.bytesInFlight <= Target(env.drainTarget) then Probing(t, env) else t
  }

  predicate EntersProbeRtt(s: Control, minRttExpired: bool) {
    s.mode != ProbeRtt && minRttExpired && !s.exitingQuiescence
  }

  function ProbeRttWindow(c: Config, env: Env): nat {
    if c.probeRttBasedOnBdp then Target(env.probeRttTarget) else MIN_CONGESTION_WINDOW
  }

  /** In PROBE_RTT: the time to leave is set once few enough bytes are in flight, and it takes a whole round. */
  function Waiting(c: Config, s: Control, env: Env, isRoundStart: bool): Control {
    if s.exitProbeRttAt == None then
      if env.bytesInFlight < ProbeRttWindow(c, env) + MAX_OUTGOING_PACKET_SIZE then
        s.(exitProbeRttAt := Some(env.now + PROBE_RTT_TIME), probeRttRoundPassed := false)
      else s
    else
      var t := if isRoundStart then s.(probeRttRoundPassed := true) else s;
      if env.now < s.exitProbeRttAt.value || !t.probeRttRoundPassed then t
      else if s.isAtFullBandwidth then Probing(t, env)
      else t.(mode := Startup, pacingGain := HIGH_GAIN)
  }

  function Entered(s: Control, minRttExpired: bool): Control {
    if EntersProbeRtt(s, minRttExpired) then s.(mode := ProbeRtt, pacingGain := 1000, exitProbeRttAt := None) else s
  }

  function Rested(c: Config, s: Control, env: Env, isRoundStart: bool, minRttExpired: bool): Control {
    var t := Entered(s, minRttExpired);
    (if t.mode == ProbeRtt then Waiting(c, t, env, isRoundStart) else t).(exitingQuiescence := false)
  }

  /** The mode after an event. */
  function Decided(c: Config, s: State, env: Env, priorInFlight: nat, hasLosses: bool, isRoundStart: bool,
                   minRttExpired: bool): State {
    var t := if s.control.mode == ProbeBw then Cycled(c, s.control, env, priorInFlight, hasLosses) else s.control;
    var u := if isRoundStart && !t.isAtFullBandwidth then
               Measured(c, t, s.feed.appLimited, Bandwidth(s.feed.estimates))
             else t;
    var v := Exited(u, env);
    State(Rested(c, v, env, isRoundStart, minRttExpired),
          if v.mode == ProbeRtt || EntersProbeRtt(v, minRttExpired) then
            s.feed.(sampling := After(s.feed.sampling, AppLimited))
          else s.feed)
  }

  function NextRecoveryWindow(c: Config, window: nat, mode: Mode, state: Recovery, bytesAcked: nat, bytesLost: nat,
                              env: Env): nat {
    if state == NotInRecovery || (c.rateBasedStartup && mode == Startup) then window
    else if window == 0 then Max(env.bytesInFlight + bytesAcked, MIN_CONGESTION_WINDOW)
    else
      var left := if window >= bytesLost then window - bytesLost else MSS;
      Max(Max(left + (if state == Growth then bytesAcked else 0), env.bytesInFlight + bytesAcked),
          MIN_CONGESTION_WINDOW)
  }

  /** The windows after an event. */
  function Windowed(c: Config, s: Control, bytesAcked: nat, totalAcked: nat, bytesLost: nat, env: Env): Control {
    s.(congestionWindow :=
         NextWindow(c, s.congestionWindow, bytesAcked, totalAcked, s.mode, s.isAtFullBandwidth, env),
       recoveryWindow := NextRecoveryWindow(c, s.recoveryWindow, s.mode, s.recoveryState, bytesAcked, bytesLost, env))
  }

  function BytesAcked(s: State): nat {
    s.feed.sampling.totalBytesAcked
  }

  function Gained(before: nat, after: nat): nat {
    if before <= after then after - before else 0
  }

  function Start(c: Config): State {
    State(Control(Startup, 0, 0, 0, c.initialWindow, 1000, 0, false, 0, 0, false, None, false, NotInRecovery, 0,
                  c.maxWindow),
          Feed(Sampling(0, 0, 0, 0, 0, 0, 0, false, 0, map[]), NOTHING, false))
  }

  function Observing(c: Config, s: State, priorInFlight: nat, env: Env, acked: seq<PacketInfo>,
                     lost: seq<PacketInfo>): State {
    Decided(c, Modelled(c, s, env, acked, lost), env, priorInFlight, lost != [], RoundStarts(s.control, acked),
            acked != [] && env.minRttExpired)
  }

  function AfterEvent(c: Config, s: State, priorInFlight: nat, env: Env, acked: seq<PacketInfo>,
                      lost: seq<PacketInfo>): State {
    var t := Observing(c, s, priorInFlight, env, acked, lost);
    t.(control := Windowed(c, t.control, Gained(BytesAcked(s), BytesAcked(t)), BytesAcked(t), TotalLength(lost), env))
  }

  function AfterSending(s: State, sentTime: int, bytesInFlight: nat, pn: nat, bytes: nat,
                        retransmittable: bool): State {
    var quiet := bytesInFlight == 0 && s.feed.sampling.isAppLimited;
    State(s.control.(lastSendPacket := pn, exitingQuiescence := s.control.exitingQuiescence || quiet),
          s.feed.(sampling := After(s.feed.sampling, Sent(sentTime, pn, bytes, bytesInFlight, retransmittable))))
  }

  lemma DiscardedPush(s: Sampling, lost: seq<PacketInfo>, i: nat)
    requires i < |lost|
    ensures Discarded(s, lost[..i+1]) == After(Discarded(s, lost[..i]), Lost(lost[i].pn))
  {
    hide After;
    assert lost[..i+1][..i] == lost[..i];
  }

  lemma NoneYet(h: seq<Event>, c: Config, round: nat, now: int, f: Feed, lost: seq<PacketInfo>, acked: seq<PacketInfo>)
    ensures h + Losses(lost[..0]) == h && h + Acks(c, now, acked[..0]) == h
    ensures Discarded(f.sampling, lost[..0]) == f.sampling && Fed(c, round, now, f, acked[..0]) == f
    ensures acked == [] ==> h + Acks(c, now, acked) == h
  {
  }

  lemma FedPush(c: Config, round: nat, now: int, f: Feed, acked: seq<PacketInfo>, i: nat)
    requires i < |acked|
    ensures Fed(c, round, now, f, acked[..i+1]) == FedOne(c, round, now, Fed(c, round, now, f, acked[..i]), acked[i])
  {
    hide FedOne;
    assert acked[..i+1][..i] == acked[..i];
  }

  /** Full bandwidth and recovery are never unlearned; recovery begins with losses reported beside acknowledgements;
      PROBE_RTT begins when the minimal RTT has expired, and is left for PROBE_BW or STARTUP. */
  predicate Shifts(s: Control, s': Control, env: Env, acked: seq<PacketInfo>, lost: seq<PacketInfo>) {
    && (s.isAtFullBandwidth ==> s'.isAtFullBandwidth)
    && (s'.recoveryState != NotInRecovery <==> s.recoveryState != NotInRecovery || (acked != [] && lost != []))
    && (s.mode != ProbeRtt && acked != [] && env.minRttExpired && !s.exitingQuiescence ==> s'.mode == ProbeRtt)
    && (s.mode == ProbeRtt && s'.mode != ProbeRtt ==> s'.mode == if s'.isAtFullBandwidth then ProbeBw else Startup)
  }

  /** Before full bandwidth the window grows by all that was acknowledged while it is below its target; afterwards
      it grows towards the target or falls to it; in PROBE_RTT it is left alone.  In recovery there is room for
      what is in flight and what was acknowledged. */
  predicate WindowSet(c: Config, s: State, s': State, env: Env) {
    var before, after := s.control.congestionWindow, s'.control.congestionWindow;
    var gained := Gained(BytesAcked(s), BytesAcked(s'));
    var mode, full := s'.control.mode, s'.control.isAtFullBandwidth;
    var extra := if c.ackAggregationDuringStartup then env.excessAcked else 0;
    && after == NextWindow(c, before, gained, BytesAcked(s'), mode, full, env)
    && (mode == ProbeRtt ==> after == before)
    && (mode != ProbeRtt && !full ==>
          if before < Target(env.windowTarget) + extra || BytesAcked(s') < c.initialWindow then
            after == Min(before + gained, c.maxWindow)
          else after == before)
    && (mode != ProbeRtt && full ==>
          after == Min(Min(Target(env.windowTarget) + env.ackHeight, before + gained), c.maxWindow))
    && (s'.control.recoveryState != NotInRecovery && !(c.rateBasedStartup && mode == Startup) ==>
          env.bytesInFlight + gained <= s'.control.recoveryWindow)
  }

  lemma CycledKeeps(c: Config, s: Control, env: Env, priorInFlight: nat, hasLosses: bool)
    ensures var t := Cycled(c, s, env, priorInFlight, hasLosses);
            t == s.(cycleCurrentOffset := t.cycleCurrentOffset, pacingGain := t.pacingGain)
  {
    hide MovesOn, Target;
  }

  lemma MeasuredKeeps(c: Config, s: Control, appLimited: bool, bandwidth: int)
    ensures var t := Measured(c, s, appLimited, bandwidth);
            && t == s.(bandwidthAtLastRound := t.bandwidthAtLastRound, isAtFullBandwidth := t.isAtFullBandwidth,
                       roundsWithoutBandwidthGain := t.roundsWithoutBandwidthGain)
            && (s.isAtFullBandwidth ==> t.isAtFullBandwidth)
  {
  }

  lemma ExitedKeeps(s: Control, env: Env)
    ensures var t := Exited(s, env);
            && t == s.(mode := t.mode, cycleCurrentOffset := t.cycleCurrentOffset, pacingGain := t.pacingGain)
            && (t.mode == ProbeRtt <==> s.mode == ProbeRtt)
  {
    hide Target;
  }

  lemma RestedKeeps(c: Config, s: Control, env: Env, isRoundStart: bool, minRttExpired: bool)
    ensures var t := Rested(c, s, env, isRoundStart, minRttExpired);
            && t == s.(mode := t.mode, cycleCurrentOffset := t.cycleCurrentOffset, pacingGain := t.pacingGain,
                       exitProbeRttAt := t.exitProbeRttAt, probeRttRoundPassed := t.probeRttRoundPassed,
                       exitingQuiescence := t.exitingQuiescence)
            && (s.mode != ProbeRtt && minRttExpired && !s.exitingQuiescence ==> t.mode == ProbeRtt)
            && (s.mode == ProbeRtt && t.mode != ProbeRtt ==> t.mode == if s.isAtFullBandwidth then ProbeBw else Startup)
  {
    hide ProbeRttWindow;
  }

  /** PROBE_RTT is entered when the minimal RTT has expired, unless the sender comes back from a pause; the time to
      leave is set at the first event that finds few enough bytes in flight; and it is left when that time has come and
      a round has passed. */
  predicate Rests(c: Config, s: Control, env: Env, isRoundStart: bool, minRttExpired: bool, s': Control) {
    && !s'.exitingQuiescence
    && (s.mode != ProbeRtt ==> s'.mode == if minRttExpired && !s.exitingQuiescence then ProbeRtt else s.mode)
    && (s.mode == ProbeRtt ==>
          var over := s.exitProbeRttAt.Some? && env.now >= s.exitProbeRttAt.value
                      && (isRoundStart || s.probeRttRoundPassed);
          s'.mode == if !over then ProbeRtt else if s.isAtFullBandwidth then ProbeBw else Startup)
    && (s'.mode == ProbeRtt && (s.mode != ProbeRtt || s.exitProbeRttAt == None) ==>
          s'.exitProbeRttAt ==
          if env.bytesInFlight < ProbeRttWindow(c, env) + MAX_OUTGOING_PACKET_SIZE then Some(env.now + PROBE_RTT_TIME)
          else None)
    && (s'.mode == ProbeRtt && s'.exitProbeRttAt.Some? ==>
          if s.mode == ProbeRtt && s.exitProbeRttAt.Some? then
            && s'.exitProbeRttAt == s.exitProbeRttAt
            && (s'.probeRttRoundPassed <==> s.probeRttRoundPassed || isRoundStart)
          else !s'.probeRttRoundPassed)
    && (if s'.mode == s.mode then s'.pacingGain == s.pacingGain
        else if s'.mode == ProbeRtt then s'.pacingGain == 1000
        else if s'.mode == Startup then s'.pacingGain == HIGH_GAIN
        else s'.cycleCurrentOffset < 8 && s'.pacingGain == GAIN_CYCLE[s'.cycleCurrentOffset])
  }

  lemma RestedRests(c: Config, s: Control, env: Env, isRoundStart: bool, minRttExpired: bool)
    ensures Rests(c, s, env, isRoundStart, minRttExpired, Rested(c, s, env, isRoundStart, minRttExpired))
  {
    hide ProbeRttWindow;
  }

  lemma ModelledKeeps(c: Config, s: State, env: Env, acked: seq<PacketInfo>, lost: seq<PacketInfo>)
    ensures var s, t := s.control, Modelled(c, s, env, acked, lost).control;
            && t == s.(roundTripCount := t.roundTripCount, currentRoundTripEnd := t.currentRoundTripEnd,
                       recoveryState := t.recoveryState, endRecoveryAt := t.endRecoveryAt,
                       recoveryWindow := t.recoveryWindow)
            && (t.recoveryState != NotInRecovery <==> s.recoveryState != NotInRecovery || (acked != [] && lost != []))
  {
    hide Fed, Discarded, EndsRound;
  }

  /** The stages of an event: u is reached when full bandwidth has been looked at, v before PROBE_RTT is. */
  lemma Stages(c: Config, s: State, priorInFlight: nat, env: Env, acked: seq<PacketInfo>, lost: seq<PacketInfo>)
    returns (t: Control, u: Control, v: Control)
    ensures var m, o := Modelled(c, s, env, acked, lost), Observing(c, s, priorInFlight, env, acked, lost);
            var isRoundStart := RoundStarts(s.control, acked);
            && t == m.control.(cycleCurrentOffset := t.cycleCurrentOffset, pacingGain := t.pacingGain)
            && u == (if isRoundStart && !t.isAtFullBandwidth then
                       Measured(c, t, m.feed.appLimited, Bandwidth(m.feed.estimates))
                     else t)
            && v == Exited(u, env)
            && o.control == Rested(c, v, env, isRoundStart, acked != [] && env.minRttExpired)
            && o.feed.appLimited == m.feed.appLimited && o.feed.estimates == m.feed.estimates
            && t == (if m.control.mode == ProbeBw then Cycled(c, m.control, env, priorInFlight, lost != [])
                     else m.control)
  {
    hide Modelled, Cycled, Measured, Exited, Rested, After, Bandwidth, RoundStarts;
    var m := Modelled(c, s, env, acked, lost);
    CycledKeeps(c, m.control, env, priorInFlight, lost != []);
    t := if m.control.mode == ProbeBw then Cycled(c, m.control, env, priorInFlight, lost != []) else m.control;
    u := if RoundStarts(s.control, acked) && !t.isAtFullBandwidth then
           Measured(c, t, m.feed.appLimited, Bandwidth(m.feed.estimates))
         else t;
    v := Exited(u, env);
  }

  lemma ObservingShifts(c: Config, s: State, priorInFlight: nat, env: Env, acked: seq<PacketInfo>,
                        lost: seq<PacketInfo>)
    ensures Shifts(s.control, Observing(c, s, priorInFlight, env, acked, lost).control, env, acked, lost)
    ensures Observing(c, s, priorInFlight, env, acked, lost).control.congestionWindow == s.control.congestionWindow
  {
    hide Modelled, Observing, Measured, Exited, Rested;
    var t, u, v := Stages(c, s, priorInFlight, env, acked, lost);
    var m := Modelled(c, s, env, acked, lost);
    ModelledKeeps(c, s, env, acked, lost);
    MeasuredKeeps(c, t, m.feed.appLimited, Bandwidth(m.feed.estimates));
    ExitedKeeps(u, env);
    RestedKeeps(c, v, env, RoundStarts(s.control, acked), acked != [] && env.minRttExpired);
  }

  lemma WindowedSets(c: Config, s: Control, bytesAcked: nat, totalAcked: nat, bytesLost: nat, env: Env)
    requires MIN_CONGESTION_WINDOW <= s.congestionWindow <= c.maxWindow
    ensures var t, mode, full := Windowed(c, s, bytesAcked, totalAcked, bytesLost, env), s.mode, s.isAtFullBandwidth;
            var extra := if c.ackAggregationDuringStartup then env.excessAcked else 0;
            && (mode == ProbeRtt ==> t.congestionWindow == s.congestionWindow)
            && (mode != ProbeRtt && !full ==>
                  if s.congestionWindow < Target(env.windowTarget) + extra || totalAcked < c.initialWindow then
                    t.congestionWindow == Min(s.congestionWindow + bytesAcked, c.maxWindow)
                  else t.congestionWindow == s.congestionWindow)
            && (mode != ProbeRtt && full ==>
                  t.congestionWindow ==
                  Min(Min(Target(env.windowTarget) + env.ackHeight, s.congestionWindow + bytesAcked), c.maxWindow))
            && (s.recoveryState != NotInRecovery && !(c.rateBasedStartup && mode == Startup) ==>
                  env.bytesInFlight + bytesAcked <= t.recoveryWindow)
            && (!full ==> s.congestionWindow <= t.congestionWindow)
  {
  }

  lemma EventSets(c: Config, s: State, priorInFlight: nat, env: Env, acked: seq<PacketInfo>, lost: seq<PacketInfo>)
    requires MIN_CONGESTION_WINDOW <= s.control.congestionWindow <= c.maxWindow
    ensures var s' := AfterEvent(c, s, priorInFlight, env, acked, lost);
            && WindowSet(c, s, s', env) && Shifts(s.control, s'.control, env, acked, lost)
            && (!s'.control.isAtFullBandwidth ==> s.control.congestionWindow <= s'.control.congestionWindow)
  {
    ObservingShifts(c, s, priorInFlight, env, acked, lost);
    var t := Observing(c, s, priorInFlight, env, acked, lost);
    WindowedSets(c, t.control, Gained(BytesAcked(s), BytesAcked(t)), BytesAcked(t), TotalLength(lost), env);
    hide Observing, NextWindow, NextRecoveryWindow, Target;
  }

  lemma ObservedCount(h: seq<Event>, c: Config, now: int, acked: seq<PacketInfo>, lost: seq<PacketInfo>)
    ensures Counting(h + Losses(lost) + Acks(c, now, acked)) == Counting(h) + (Losses(lost) + Acks(c, now, acked))
  {
    LossesCount(lost);
    AcksCount(c, now, acked);
    CountingConcat(h, Losses(lost) + Acks(c, now, acked));
    Assoc(h, Losses(lost), Acks(c, now, acked));
  }

  class BbrSender {
    const config: Config
    const sampler: BandwidthSampler
    const maxBandwidth: WindowedFilter

    var mode: Mode
    var roundTripCount: nat
    var lastSendPacket: nat
    var currentRoundTripEnd: nat
    var congestionWindow: nat
    var pacingGain: nat   // per mille
    var cycleCurrentOffset: nat
    var isAtFullBandwidth: bool
    var roundsWithoutBandwidthGain: nat
    var bandwidthAtLastRound: int
    var exitingQuiescence: bool
    var exitProbeRttAt: Option<int>
    var probeRttRoundPassed: bool
    var lastSampleIsAppLimited: bool
    var recoveryState: Recovery
    var endRecoveryAt: nat
    var recoveryWindow: nat

    /** The bandwidth filter is only ever updated with the round count. */
    ghost predicate FilterOk()
      reads this`roundTripCount, maxBandwidth, maxBandwidth.estimates
    {
      && maxBandwidth.Valid() && maxBandwidth.estimates.Length == 3
      && maxBandwidth.kind == MaxFilter && maxBandwidth.windowLength == BANDWIDTH_WINDOW_SIZE
      && (maxBandwidth.history != [] ==> maxBandwidth.history[|maxBandwidth.history|-1].time <= roundTripCount)
    }

    /** The window lies within its limits and has grown by no more than was acknowledged. */
    ghost predicate WindowOk()
      reads this`congestionWindow, sampler
    {
      && Sensible(config)
      && MIN_CONGESTION_WINDOW <= congestionWindow <= config.maxWindow
      && congestionWindow <= config.initialWindow + sampler.totalBytesAcked
    }

    ghost predicate RecoveryOk()
      reads this`recoveryState, this`recoveryWindow, this`mode
    {
      recoveryState != NotInRecovery && !(config.rateBasedStartup && mode == Startup) ==>
          MIN_CONGESTION_WINDOW <= recoveryWindow
    }

    /** DRAIN and PROBE_BW are only reached at full bandwidth, which is found after three rounds without growth. */
    ghost predicate ModeOk()
      reads this`mode, this`isAtFullBandwidth, this`roundsWithoutBandwidthGain, this`cycleCurrentOffset, this`pacingGain
    {
      && (mode == Drain || mode == ProbeBw ==> isAtFullBandwidth)
      && (isAtFullBandwidth && !config.exitStartupOnLoss ==> ROUNDS_WITHOUT_GROWTH <= roundsWithoutBandwidthGain)
      && cycleCurrentOffset < 8
      && (mode == ProbeBw && !config.drainToTarget ==> pacingGain == GAIN_CYCLE[cycleCurrentOffset])
    }

    ghost predicate Valid()
      reads this, sampler, maxBandwidth, maxBandwidth.estimates
    {
      && (currentRoundTripEnd != 0 ==> 1 <= roundTripCount)
      && sampler.Valid() && FilterOk() && WindowOk() && RecoveryOk() && ModeOk()
      && (isAtFullBandwidth ==> mode != Startup)
    }

    constructor (config: Config)
      requires Sensible(config)
      ensures Valid() && fresh(sampler) && fresh(maxBandwidth) && fresh(maxBandwidth.estimates) && this.config == config
      ensures mode == Startup && congestionWindow == config.initialWindow && !isAtFullBandwidth && !InRecovery()
      ensures sampler.totalBytesAcked == 0 && sampler.history == []
      ensures Look() == Start(config)
    {
      this.config := config;
      sampler := new BandwidthSampler();
      maxBandwidth := new WindowedFilter(BANDWIDTH_WINDOW_SIZE, MaxFilter);
      mode, roundTripCount, lastSendPacket, currentRoundTripEnd := Startup, 0, 0, 0;
      congestionWindow, pacingGain, cycleCurrentOffset := config.initialWindow, 1000, 0;
      isAtFullBandwidth, roundsWithoutBandwidthGain, bandwidthAtLastRound := false, 0, 0;
      exitingQuiescence, exitProbeRttAt, probeRttRoundPassed, lastSampleIsAppLimited := false, None, false, false;
      recoveryState, endRecoveryAt, recoveryWindow := NotInRecovery, 0, config.maxWindow;
    }

    function Settings(): Control
      reads this`mode, this`roundTripCount, this`lastSendPacket, this`currentRoundTripEnd, this`congestionWindow,
            this`pacingGain, this`cycleCurrentOffset, this`isAtFullBandwidth, this`roundsWithoutBandwidthGain,
            this`bandwidthAtLastRound, this`exitingQuiescence, this`exitProbeRttAt, this`probeRttRoundPassed,
            this`recoveryState, this`endRecoveryAt, this`recoveryWindow
    {
      Control(mode, roundTripCount, lastSendPacket, currentRoundTripEnd, congestionWindow, pacingGain,
              cycleCurrentOffset, isAtFullBandwidth, roundsWithoutBandwidthGain, bandwidthAtLastRound,
              exitingQuiescence, exitProbeRttAt, probeRttRoundPassed, recoveryState, endRecoveryAt, recoveryWindow)
    }

    function Look(): State
      reads this, sampler, maxBandwidth.estimates
      requires maxBandwidth.estimates.Length == 3
    {
      State(Settings(), Intake())
    }

    function Intake(): Feed
      reads this`lastSampleIsAppLimited, sampler, maxBandwidth.estimates
      requires maxBandwidth.estimates.Length == 3
    {
      Feed(sampler.Look(), maxBandwidth.Look(), lastSampleIsAppLimited)
    }

    predicate InRecovery()
      reads this
    {
      recoveryState != NotInRecovery
    }

    /** GetCongestionWindow never falls below four segments, not even in recovery, where the smaller window counts. */
    function GetCongestionWindow(env: Env): (r: nat)
      requires Valid()
      reads this, sampler, maxBandwidth, maxBandwidth.estimates
      ensures MIN_CONGESTION_WINDOW <= r && HandsOut(config, Settings(), env, r)
    {
      if mode == ProbeRtt then ProbeRttWindow(config, env)
      else if InRecovery() && !(config.rateBasedStartup && mode == Startup) then Min(congestionWindow, recoveryWindow)
      else congestionWindow
    }

    method OnPacketSent(sentTime: int, bytesInFlight: nat, pn: nat, bytes: nat, isRetransmittable: bool)
      requires Valid()
      modifies this`lastSendPacket, this`exitingQuiescence, sampler
      ensures Valid() && lastSendPacket == pn
      ensures exitingQuiescence <==> old(exitingQuiescence) || (bytesInFlight == 0 && old(sampler.isAppLimited))
      ensures sampler.history == old(sampler.history) + [Sent(sentTime, pn, bytes, bytesInFlight, isRetransmittable)]
      ensures sampler.totalBytesAcked == old(sampler.totalBytesAcked)
      ensures sampler.totalBytesSent == old(sampler.totalBytesSent) + if isRetransmittable then bytes else 0
      ensures isRetransmittable ==> pn in sampler.stats
      ensures Look() == AfterSending(old(Look()), sentTime, bytesInFlight, pn, bytes, isRetransmittable)
    {
      hide BandwidthSampler.Valid, WindowedFilter.Valid;
      lastSendPacket := pn;
      if bytesInFlight == 0 && sampler.isAppLimited {
        exitingQuiescence := true;
      }
      sampler.OnPacketSent(sentTime, pn, bytes, bytesInFlight, isRetransmittable);
    }

    // ----- the steps of an event

    method DiscardLostPackets(lost: seq<PacketInfo>)
      requires sampler.Valid()
      modifies sampler
      ensures sampler.Valid() && sampler.totalBytesAcked == old(sampler.totalBytesAcked)
      ensures sampler.history == old(sampler.history) + Losses(lost)
      ensures forall i :: 0 <= i < |lost| ==> lost[i].pn !in sampler.stats
      ensures sampler.Look() == Discarded(old(sampler.Look()), lost)
    {
      hide BandwidthSampler.Valid, BandwidthSampler.Look, Losses, After, Discarded;
      NoneYet(sampler.history, config, 0, 0, Feed(sampler.Look(), NOTHING, false), lost, []);
      for i := 0 to |lost|
        invariant sampler.Valid() && sampler.totalBytesAcked == old(sampler.totalBytesAcked)
        invariant sampler.history == old(sampler.history) + Losses(lost[..i])
        invariant forall k :: 0 <= k < i ==> lost[k].pn !in sampler.stats
        invariant sampler.Look() == Discarded(old(sampler.Look()), lost[..i])
      {
        DiscardedPush(old(sampler.Look()), lost, i);
        LossesPush(lost, i);
        Assoc(old(sampler.history), Losses(lost[..i]), [Lost(lost[i].pn)]);
        var _ := sampler.OnPacketLost(lost[i].pn);
      }
      assert lost[..|lost|] == lost;
    }

    method UpdateRoundTripCounter(lastAckedPacket: nat) returns (isRoundStart: bool)
      requires FilterOk() && (currentRoundTripEnd != 0 ==> 1 <= roundTripCount)
      modifies this`currentRoundTripEnd, this`roundTripCount
      ensures FilterOk() && 1 <= roundTripCount && old(roundTripCount) <= roundTripCount
      ensures isRoundStart <==> old(currentRoundTripEnd) == 0 || lastAckedPacket > old(currentRoundTripEnd)
      ensures currentRoundTripEnd == if isRoundStart then lastAckedPacket else old(currentRoundTripEnd)
      ensures roundTripCount == if isRoundStart then old(roundTripCount) + 1 else old(roundTripCount)
      ensures isRoundStart == EndsRound(old(Settings()), lastAckedPacket)
      ensures Settings() == Counted(old(Settings()), lastAckedPacket)
    {
      hide WindowedFilter.Valid;
      if currentRoundTripEnd == 0 || lastAckedPacket > currentRoundTripEnd {
        currentRoundTripEnd, roundTripCount := lastAckedPacket, roundTripCount + 1;
        return true;
      }
      return false;
    }

    function BandwidthEstimate(): int
      reads maxBandwidth.estimates
      requires maxBandwidth.estimates.Length == 3
    {
      ToUnsigned(maxBandwidth.GetBest())
    }

    /** One packet of UpdateBandwidthAndMinRtt.  The filter takes in every sample but those that are app-limited and
        below the estimate; its times are round counts, which start at 1 and never go back. */
    method UpdateBandwidthOne(now: int, p: PacketInfo)
      requires sampler.Valid() && FilterOk() && 1 <= roundTripCount
      modifies this`lastSampleIsAppLimited, sampler, maxBandwidth, maxBandwidth.estimates
      ensures sampler.Valid() && FilterOk()
      ensures Skipped(config, p) ==>
                sampler.stats == old(sampler.stats) && sampler.totalBytesAcked == old(sampler.totalBytesAcked) &&
                    maxBandwidth.history == old(maxBandwidth.history)
      ensures sampler.history == old(sampler.history) + if Skipped(config, p) then [] else [Acked(now, p.pn)]
      ensures !Skipped(config, p) ==> sampler.stats == old(sampler.stats) - {p.pn}
      ensures !Skipped(config, p) ==>
                sampler.totalBytesAcked == old(sampler.totalBytesAcked) +
                    if p.pn in old(sampler.stats) then old(sampler.stats)[p.pn].size else 0
      ensures !Skipped(config, p) && p.pn in old(sampler.stats) &&
                !old(sampler.stats)[p.pn].sendTimeState.isAppLimited && !config.alwaysGetBwSample ==>
                |maxBandwidth.history| == |old(maxBandwidth.history)| + 1 &&
                    old(maxBandwidth.history) <= maxBandwidth.history
      ensures var s := SampleOf(old(sampler.Look()), now, p.pn);
              var passed := if config.alwaysGetBwSample then !s.stateAtSend.isValid else p.length == 0;
              && lastSampleIsAppLimited == (if passed then old(lastSampleIsAppLimited) else s.stateAtSend.isAppLimited)
              && maxBandwidth.history == old(maxBandwidth.history) +
                 if !passed && (!s.stateAtSend.isAppLimited || s.bandwidth > old(BandwidthEstimate())) then
                   [Sample(if s.bandwidth < TWO_64 / 2 then s.bandwidth else s.bandwidth - TWO_64, roundTripCount)]
                 else []
      ensures Intake() == FedOne(config, roundTripCount, now, old(Intake()), p)
    {
      hide BandwidthSampler.Valid, WindowedFilter.Valid, SampleOf, Updated, Bounded;
      assert maxBandwidth.history + [] == maxBandwidth.history;
      if Skipped(config, p) {
        assert sampler.history + [] == sampler.history;
        return;
      }
      var s := sampler.OnPacketAcked(now, p.pn);
      if config.alwaysGetBwSample && !s.stateAtSend.isValid {
        return;
      }
      lastSampleIsAppLimited := s.stateAtSend.isAppLimited;
      if !s.stateAtSend.isAppLimited || s.bandwidth > BandwidthEstimate() {
        maxBandwidth.Update(ToSigned(s.bandwidth), roundTripCount);
      }
    }

    method UpdateBandwidth(now: int, acked: seq<PacketInfo>)
      requires sampler.Valid() && FilterOk() && 1 <= roundTripCount
      modifies this`lastSampleIsAppLimited, sampler, maxBandwidth, maxBandwidth.estimates
      ensures sampler.Valid() && FilterOk() && old(sampler.totalBytesAcked) <= sampler.totalBytesAcked
      ensures forall i :: 0 <= i < |acked| && !Skipped(config, acked[i]) ==> acked[i].pn !in sampler.stats
      ensures sampler.stats.Keys <= old(sampler.stats.Keys)
      ensures sampler.history == old(sampler.history) + Acks(config, now, acked)
      ensures Intake() == Fed(config, roundTripCount, now, old(Intake()), acked)
    {
      hide BandwidthSampler.Valid, WindowedFilter.Valid, FedOne, After;
      hide BandwidthSampler.Look, WindowedFilter.Look, BbrSender.Intake, Acks, Fed;
      NoneYet(sampler.history, config, roundTripCount, now, Intake(), [], acked);
      for i := 0 to |acked|
        invariant sampler.history == old(sampler.history) + Acks(config, now, acked[..i])
        invariant sampler.Valid() && FilterOk() && old(sampler.totalBytesAcked) <= sampler.totalBytesAcked
        invariant forall k :: 0 <= k < i && !Skipped(config, acked[k]) ==> acked[k].pn !in sampler.stats
        invariant sampler.stats.Keys <= old(sampler.stats.Keys)
        invariant Intake() == Fed(config, roundTripCount, now, old(Intake()), acked[..i])
      {
        FedPush(config, roundTripCount, now, old(Intake()), acked, i);
        AcksPush(config, now, acked, i);
        Assoc(old(sampler.history), Acks(config, now, acked[..i]),
            if Skipped(config, acked[i]) then [] else [Acked(now, acked[i].pn)]);
        UpdateBandwidthOne(now, acked[i]);
      }
      assert acked[..|acked|] == acked;
    }

    /** Recovery is entered with a loss; it is never left, because a loss-free event moves endRecoveryAt to the last
        packet sent before it asks whether that packet lies beyond. */
    method UpdateRecoveryState(hasLosses: bool, isRoundStart: bool)
      modifies this`recoveryState, this`recoveryWindow, this`currentRoundTripEnd, this`endRecoveryAt
      ensures recoveryState == NotInRecovery <==> old(recoveryState) == NotInRecovery && !hasLosses
      ensures recoveryWindow == if old(recoveryState) == NotInRecovery && hasLosses then 0 else old(recoveryWindow)
      ensures recoveryState == Growth <==>
                old(recoveryState) == Growth || (old(recoveryState) == Conservation && isRoundStart)
      ensures currentRoundTripEnd == if old(recoveryState) == NotInRecovery &&
                hasLosses then lastSendPacket else old(currentRoundTripEnd)
      ensures endRecoveryAt == if hasLosses then old(endRecoveryAt) else lastSendPacket
      ensures Settings() == Recovering(old(Settings()), hasLosses, isRoundStart)
    {
      if !hasLosses {
        endRecoveryAt := lastSendPacket;
      }
      if recoveryState == NotInRecovery {
        if hasLosses {
          recoveryState, recoveryWindow, currentRoundTripEnd := Conservation, 0, lastSendPacket;
        }
      } else {
        if recoveryState == Conservation && isRoundStart {
          recoveryState := Growth;
        }
        recoveryState := if !hasLosses && lastSendPacket > endRecoveryAt then NotInRecovery else recoveryState;
      }
    }

    method UpdateGainCyclePhase(env: Env, priorInFlight: nat, hasLosses: bool)
      requires mode == ProbeBw && ModeOk()
      modifies this`cycleCurrentOffset, this`pacingGain
      ensures ModeOk()
      ensures var drained := env.bytesInFlight <= Target(env.drainTarget);
              var filling := old(pacingGain) > 1000 && !hasLosses && priorInFlight < Target(env.gainTarget);
              var advance := (old(pacingGain) < 1000 && drained) || (env.rttPassed && !filling);
              && cycleCurrentOffset == (if advance then (old(cycleCurrentOffset) + 1) % 8 else old(cycleCurrentOffset))
              && var next := GAIN_CYCLE[cycleCurrentOffset];
                 var held := config.drainToTarget && old(pacingGain) < 1000 && next == 1000 && !drained;
                 pacingGain == if advance && !held then next else old(pacingGain)
      ensures Settings() == Cycled(config, old(Settings()), env, priorInFlight, hasLosses)
    {
      var advance := env.rttPassed;
      if pacingGain > 1000 && !hasLosses && priorInFlight < Target(env.gainTarget) {
        advance := false;
      }
      if pacingGain < 1000 && env.bytesInFlight <= Target(env.drainTarget) {
        advance := true;
      }
      if advance {
        cycleCurrentOffset := (cycleCurrentOffset + 1) % 8;
        if config.drainToTarget && pacingGain < 1000 && GAIN_CYCLE[cycleCurrentOffset] == 1000 &&
            env.bytesInFlight > Target(env.drainTarget) {
          return;
        }
        pacingGain := GAIN_CYCLE[cycleCurrentOffset];
      }
    }

    /** Full bandwidth is reached after three rounds, not counting app-limited ones, without 25% growth. */
    method CheckIfFullBandwidthReached()
      requires ModeOk() && !isAtFullBandwidth && maxBandwidth.estimates.Length == 3
      modifies this`bandwidthAtLastRound, this`roundsWithoutBandwidthGain, this`isAtFullBandwidth
      ensures ModeOk()
      ensures var grew := BandwidthEstimate() >= old(bandwidthAtLastRound) * 5 / 4;
              && roundsWithoutBandwidthGain ==
                 (if lastSampleIsAppLimited then old(roundsWithoutBandwidthGain) else
                     if grew then 0 else old(roundsWithoutBandwidthGain) + 1)
              && bandwidthAtLastRound ==
                 (if !lastSampleIsAppLimited && grew then BandwidthEstimate() else old(bandwidthAtLastRound))
              && (isAtFullBandwidth <==>
                 !lastSampleIsAppLimited && !grew &&
                     (ROUNDS_WITHOUT_GROWTH <= roundsWithoutBandwidthGain ||
                         (config.exitStartupOnLoss && InRecovery())))
      ensures Settings() == Measured(config, old(Settings()), lastSampleIsAppLimited, BandwidthEstimate())
    {
      if lastSampleIsAppLimited {
        return;
      }
      if BandwidthEstimate() >= bandwidthAtLastRound * 5 / 4 {
        bandwidthAtLastRound, roundsWithoutBandwidthGain := BandwidthEstimate(), 0;
        return;
      }
      roundsWithoutBandwidthGain := roundsWithoutBandwidthGain + 1;
      if roundsWithoutBandwidthGain >= ROUNDS_WITHOUT_GROWTH || (config.exitStartupOnLoss && InRecovery()) {
        isAtFullBandwidth := true;
      }
    }

    method EnterProbeBandwidthMode(env: Env)
      requires isAtFullBandwidth && ModeOk()
      modifies this`mode, this`cycleCurrentOffset, this`pacingGain
      ensures ModeOk() && mode == ProbeBw && cycleCurrentOffset != 1 && pacingGain == GAIN_CYCLE[cycleCurrentOffset]
      ensures env.random % 7 == if cycleCurrentOffset == 0 then 0 else cycleCurrentOffset - 1
      ensures Settings() == Probing(old(Settings()), env)
    {
      mode := ProbeBw;
      cycleCurrentOffset := env.random % 7;
      if cycleCurrentOffset >= 1 {
        cycleCurrentOffset := cycleCurrentOffset + 1;
      }
      pacingGain := GAIN_CYCLE[cycleCurrentOffset];
    }

    method MaybeExitStartupOrDrain(env: Env)
      requires ModeOk()
      modifies this`mode, this`cycleCurrentOffset, this`pacingGain
      ensures ModeOk() && (isAtFullBandwidth ==> mode != Startup)
      ensures var drained := env.bytesInFlight <= Target(env.drainTarget);
              mode == match old(mode)
                      case Startup => if !isAtFullBandwidth then Startup else if drained then ProbeBw else Drain
                      case Drain => if drained then ProbeBw else Drain
                      case other => other
      ensures pacingGain == if mode == old(mode) then old(pacingGain)
                            else if mode == Drain then DRAIN_GAIN else GAIN_CYCLE[cycleCurrentOffset]
      ensures Settings() == Exited(old(Settings()), env)
    {
      if mode == Startup && isAtFullBandwidth {
        mode, pacingGain := Drain, DRAIN_GAIN;
      }
      if mode == Drain && env.bytesInFlight <= Target(env.drainTarget) {
        EnterProbeBandwidthMode(env);
      }
    }

    method BeginAppLimited()
      requires sampler.Valid()
      modifies sampler`isAppLimited, sampler`endOfAppLimitedPhase, sampler`history
      ensures sampler.Valid() && sampler.isAppLimited && Counting(sampler.history) == Counting(old(sampler.history))
      ensures sampler.Look() == After(old(sampler.Look()), AppLimited)
    {
      hide BandwidthSampler.Valid, Counting;
      CountingPush(sampler.history, AppLimited);
      assert Counting(sampler.history) + [] == Counting(sampler.history);
      sampler.OnAppLimited();
    }

    // The two parts of MaybeEnterOrExitProbeRtt: to enter PROBE_RTT, and what to do there.
    method MaybeEnterProbeRtt(minRttExpired: bool)
      requires ModeOk()
      modifies this`mode, this`pacingGain, this`exitProbeRttAt
      ensures ModeOk() && Settings() == Entered(old(Settings()), minRttExpired)
      ensures if EntersProbeRtt(old(Settings()), minRttExpired) then mode == ProbeRtt && exitProbeRttAt == None
              else mode == old(mode) && exitProbeRttAt == old(exitProbeRttAt)
    {
      if minRttExpired && !exitingQuiescence && mode != ProbeRtt {
        mode, pacingGain, exitProbeRttAt := ProbeRtt, 1000, None;
      }
    }

    method WaitInProbeRtt(env: Env, isRoundStart: bool)
      requires ModeOk() && mode == ProbeRtt
      modifies this`mode, this`pacingGain, this`exitProbeRttAt, this`probeRttRoundPassed, this`cycleCurrentOffset
      ensures ModeOk() && Settings() == Waiting(config, old(Settings()), env, isRoundStart)
      ensures isAtFullBandwidth ==> mode != Startup
    {
      hide ProbeRttWindow, Probing;
      if exitProbeRttAt == None {
        if env.bytesInFlight < ProbeRttWindow(config, env) + MAX_OUTGOING_PACKET_SIZE {
          exitProbeRttAt, probeRttRoundPassed := Some(env.now + PROBE_RTT_TIME), false;
        }
      } else {
        if isRoundStart {
          probeRttRoundPassed := true;
        }
        if env.now >= exitProbeRttAt.value && probeRttRoundPassed {
          if !isAtFullBandwidth {
            mode, pacingGain := Startup, HIGH_GAIN;
          } else {
            EnterProbeBandwidthMode(env);
          }
        }
      }
    }

    method MaybeEnterOrExitProbeRtt(env: Env, isRoundStart: bool, minRttExpired: bool)
      requires ModeOk() && (isAtFullBandwidth ==> mode != Startup) && sampler.Valid()
      modifies this`mode, this`pacingGain, this`exitProbeRttAt, this`probeRttRoundPassed, this`exitingQuiescence,
          this`cycleCurrentOffset, sampler
      ensures ModeOk() && (isAtFullBandwidth ==> mode != Startup) && sampler.Valid()
      ensures sampler.totalBytesAcked == old(sampler.totalBytesAcked) && sampler.stats == old(sampler.stats)
      ensures Counting(sampler.history) == Counting(old(sampler.history))
      ensures Rests(config, old(Settings()), env, isRoundStart, minRttExpired, Settings())
      ensures mode == ProbeRtt ==> sampler.isAppLimited
      ensures Settings() == Rested(config, old(Settings()), env, isRoundStart, minRttExpired)
      ensures sampler.Look() ==
                if old(Settings()).mode == ProbeRtt || EntersProbeRtt(old(Settings()), minRttExpired) then
                  After(old(sampler.Look()), AppLimited)
                else old(sampler.Look())
    {
      hide BandwidthSampler.Valid, Counting, ProbeRttWindow, After, BandwidthSampler.Look, Waiting, Entered, Rests;
      hide BbrSender.ModeOk;
      RestedRests(config, Settings(), env, isRoundStart, minRttExpired);
      MaybeEnterProbeRtt(minRttExpired);
      if mode == ProbeRtt {
        BeginAppLimited();
        WaitInProbeRtt(env, isRoundStart);
      }
      exitingQuiescence := false;
    }

    /** The window grows by no more than was acknowledged, keeps to its limits, and does not shrink before full
        bandwidth. */
    method CalculateCongestionWindow(ackedBytes: nat, env: Env)
      requires Sensible(config) && MIN_CONGESTION_WINDOW <= congestionWindow <= config.maxWindow
      modifies this`congestionWindow
      ensures MIN_CONGESTION_WINDOW <= congestionWindow <= config.maxWindow
      ensures congestionWindow ==
                NextWindow(config, old(congestionWindow), ackedBytes, sampler.totalBytesAcked, mode, isAtFullBandwidth,
                    env)
      ensures congestionWindow <= old(congestionWindow) + ackedBytes
      ensures !isAtFullBandwidth || mode == ProbeRtt ==> old(congestionWindow) <= congestionWindow
      ensures mode == ProbeRtt ==> congestionWindow == old(congestionWindow)
      ensures var extra := if config.ackAggregationDuringStartup then env.excessAcked else 0;
              mode != ProbeRtt && !isAtFullBandwidth ==>
                if old(congestionWindow) < Target(env.windowTarget) + extra
                   || sampler.totalBytesAcked < config.initialWindow then
                  congestionWindow == Min(old(congestionWindow) + ackedBytes, config.maxWindow)
                else congestionWindow == old(congestionWindow)
      ensures mode != ProbeRtt && isAtFullBandwidth ==>
                congestionWindow ==
                    Min(Min(Target(env.windowTarget) + env.ackHeight, old(congestionWindow) + ackedBytes),
                        config.maxWindow)
    {
      if mode == ProbeRtt {
        return;
      }
      var target := Target(env.windowTarget);
      if isAtFullBandwidth {
        target := target + env.ackHeight;
      } else if config.ackAggregationDuringStartup {
        target := target + env.excessAcked;
      }
      if isAtFullBandwidth {
        congestionWindow := Min(target, congestionWindow + ackedBytes);
      } else if congestionWindow < target || sampler.totalBytesAcked < config.initialWindow {
        congestionWindow := congestionWindow + ackedBytes;
      }
      congestionWindow := Max(congestionWindow, MIN_CONGESTION_WINDOW);
      congestionWindow := Min(congestionWindow, config.maxWindow);
    }

    method CalculateRecoveryWindow(ackedBytes: nat, lostBytes: nat, env: Env)
      modifies this`recoveryWindow
      ensures RecoveryOk()
      ensures InRecovery() && !(config.rateBasedStartup && mode == Startup) ==>
                env.bytesInFlight + ackedBytes <= recoveryWindow
      ensures !InRecovery() || (config.rateBasedStartup && mode == Startup) ==> recoveryWindow == old(recoveryWindow)
      ensures InRecovery() && !(config.rateBasedStartup && mode == Startup) && old(recoveryWindow) == 0 ==>
                recoveryWindow == Max(env.bytesInFlight + ackedBytes, MIN_CONGESTION_WINDOW)
      ensures InRecovery() && !(config.rateBasedStartup && mode == Startup) && 0 < old(recoveryWindow) ==>
                var left := if old(recoveryWindow) >= lostBytes then old(recoveryWindow) - lostBytes else MSS;
                recoveryWindow ==
                    Max(Max(left + (if recoveryState == Growth then ackedBytes else 0),
                        env.bytesInFlight + ackedBytes), MIN_CONGESTION_WINDOW)
      ensures recoveryWindow ==
                NextRecoveryWindow(config, old(recoveryWindow), mode, recoveryState, ackedBytes, lostBytes, env)
    {
      if config.rateBasedStartup && mode == Startup {
        return;
      }
      if recoveryState == NotInRecovery {
        return;
      }
      if recoveryWindow == 0 {
        recoveryWindow := Max(env.bytesInFlight + ackedBytes, MIN_CONGESTION_WINDOW);
        return;
      }
      recoveryWindow := if recoveryWindow >= lostBytes then recoveryWindow - lostBytes else MSS;
      if recoveryState == Growth {
        recoveryWindow := recoveryWindow + ackedBytes;
      }
      recoveryWindow := Max(recoveryWindow, env.bytesInFlight + ackedBytes);
      recoveryWindow := Max(recoveryWindow, MIN_CONGESTION_WINDOW);
    }

    // The part of an event that sets the windows; `before` is what had been acknowledged when the window was last set.
    method Recalculate(before: nat, lostBytes: nat, env: Env)
      requires Sensible(config) && MIN_CONGESTION_WINDOW <= congestionWindow <= config.maxWindow
      requires before <= sampler.totalBytesAcked && congestionWindow <= config.initialWindow + before
      modifies this`congestionWindow, this`recoveryWindow
      ensures WindowOk() && RecoveryOk()
      ensures congestionWindow <= old(congestionWindow) + (sampler.totalBytesAcked - before)
      ensures !isAtFullBandwidth ==> old(congestionWindow) <= congestionWindow
      ensures Settings() == Windowed(config, old(Settings()), Gained(before, sampler.totalBytesAcked),
                sampler.totalBytesAcked, lostBytes, env)
    {
      hide NextWindow, NextRecoveryWindow, Target, BbrSender.RecoveryOk, Max, Min;
      var bytesAcked := sampler.totalBytesAcked - before;
      CalculateCongestionWindow(bytesAcked, env);
      CalculateRecoveryWindow(bytesAcked, lostBytes, env);
    }

    lemma WithinLimits()
      requires Valid()
      ensures Sensible(config) && MIN_CONGESTION_WINDOW <= congestionWindow <= config.maxWindow
      ensures congestionWindow <= config.initialWindow + sampler.totalBytesAcked
      ensures maxBandwidth.estimates.Length == 3
    {
    }

    lemma Shown()
      ensures Settings().congestionWindow == congestionWindow && Settings().isAtFullBandwidth == isAtFullBandwidth
      ensures Settings().mode == mode && Settings().roundTripCount == roundTripCount
    {
    }

    /** What was acknowledged or lost is no longer sampled. */
    ghost predicate Untracked(acked: seq<PacketInfo>, lost: seq<PacketInfo>)
      reads sampler
    {
      && (forall i :: 0 <= i < |acked| && !Skipped(config, acked[i]) ==> acked[i].pn !in sampler.stats)
      && (forall i :: 0 <= i < |lost| ==> lost[i].pn !in sampler.stats)
    }

    // The part of an event that brings the model of the connection up to date.
    method UpdateModel(env: Env, acked: seq<PacketInfo>, lost: seq<PacketInfo>)
      returns (isRoundStart: bool, minRttExpired: bool)
      requires sampler.Valid() && FilterOk() && (currentRoundTripEnd != 0 ==> 1 <= roundTripCount)
      modifies this`currentRoundTripEnd, this`roundTripCount, this`lastSampleIsAppLimited, this`recoveryState,
               this`recoveryWindow, this`endRecoveryAt, sampler, maxBandwidth, maxBandwidth.estimates
      ensures sampler.Valid() && FilterOk() && (currentRoundTripEnd != 0 ==> 1 <= roundTripCount)
      ensures old(sampler.totalBytesAcked) <= sampler.totalBytesAcked
      ensures acked == [] ==> sampler.totalBytesAcked == old(sampler.totalBytesAcked)
      ensures sampler.history == old(sampler.history) + Losses(lost) + Acks(config, env.now, acked)
      ensures recoveryState != NotInRecovery <==> old(recoveryState) != NotInRecovery || (acked != [] && lost != [])
      ensures Untracked(acked, lost)
      ensures roundTripCount == old(roundTripCount) + if isRoundStart then 1 else 0
      ensures minRttExpired <==> acked != [] && env.minRttExpired
      ensures isRoundStart == RoundStarts(old(Settings()), acked)
      ensures maxBandwidth.estimates.Length == 3 && Look() == Modelled(config, old(Look()), env, acked, lost)
    {
      hide BandwidthSampler.Valid, WindowedFilter.Valid, BandwidthSampler.Look, WindowedFilter.Look, Skipped;
      hide Losses, Acks, Counted, Recovering, Fed, Discarded, BbrSender.Settings;
      isRoundStart, minRttExpired := false, false;
      DiscardLostPackets(lost);
      NoneYet(sampler.history, config, roundTripCount, env.now, Intake(), lost, acked);
      if acked != [] {
        isRoundStart := UpdateRoundTripCounter(acked[|acked|-1].pn);
        Shown();
        UpdateBandwidth(env.now, acked);
        minRttExpired := env.minRttExpired;
        UpdateRecoveryState(lost != [], isRoundStart);
      }
    }

    // The part of an event that decides on the mode.
    method UpdateMode(env: Env, priorInFlight: nat, hasLosses: bool, isRoundStart: bool, minRttExpired: bool)
      requires ModeOk() && (isAtFullBandwidth ==> mode != Startup) && sampler.Valid() &&
                maxBandwidth.estimates.Length == 3
      modifies this`mode, this`pacingGain, this`exitProbeRttAt, this`probeRttRoundPassed, this`exitingQuiescence,
               this`cycleCurrentOffset, this`bandwidthAtLastRound, this`roundsWithoutBandwidthGain,
               this`isAtFullBandwidth, sampler
      ensures ModeOk() && (isAtFullBandwidth ==> mode != Startup) && sampler.Valid()
      ensures sampler.totalBytesAcked == old(sampler.totalBytesAcked) && sampler.stats == old(sampler.stats)
      ensures Counting(sampler.history) == Counting(old(sampler.history))
      ensures Look() == Decided(config, old(Look()), env, priorInFlight, hasLosses, isRoundStart, minRttExpired)
    {
      hide BandwidthSampler.Valid, Counting, Cycled, Measured, Exited, Rested, After, BbrSender.ModeOk;
      hide BbrSender.Settings, BandwidthSampler.Look, EntersProbeRtt, Rests, Target, MovesOn;
      Shown();
      if mode == ProbeBw {
        UpdateGainCyclePhase(env, priorInFlight, hasLosses);
      }
      Shown();
      if isRoundStart && !isAtFullBandwidth {
        CheckIfFullBandwidthReached();
      }
      MaybeExitStartupOrDrain(env);
      MaybeEnterOrExitProbeRtt(env, isRoundStart, minRttExpired);
    }

    // Everything in an event that precedes the windows.
    method Observe(priorInFlight: nat, env: Env, acked: seq<PacketInfo>, lost: seq<PacketInfo>)
      requires Valid()
      modifies this`currentRoundTripEnd, this`roundTripCount, this`lastSampleIsAppLimited, this`recoveryState,
               this`recoveryWindow, this`endRecoveryAt, this`mode, this`pacingGain, this`exitProbeRttAt,
               this`probeRttRoundPassed, this`exitingQuiescence, this`cycleCurrentOffset, this`bandwidthAtLastRound,
               this`roundsWithoutBandwidthGain, this`isAtFullBandwidth, sampler, maxBandwidth, maxBandwidth.estimates
      ensures sampler.Valid() && FilterOk() && ModeOk() && (isAtFullBandwidth ==> mode != Startup) &&
                (currentRoundTripEnd != 0 ==> 1 <= roundTripCount)
      ensures old(sampler.totalBytesAcked) <= sampler.totalBytesAcked
      ensures Untracked(acked, lost)
      ensures Counting(sampler.history) ==
                Counting(old(sampler.history)) + (Losses(lost) + Acks(config, env.now, acked))
      ensures maxBandwidth.estimates.Length == 3
      ensures Look() == Observing(config, old(Look()), priorInFlight, env, acked, lost)
    {
      hide BandwidthSampler.Valid, WindowedFilter.Valid, Counting, Losses, Acks;
      hide BbrSender.FilterOk, BbrSender.RecoveryOk, BbrSender.ModeOk, BbrSender.WindowOk, BbrSender.Settings;
      hide Modelled, Decided;
      WithinLimits();
      ObservedCount(sampler.history, config, env.now, acked, lost);
      var isRoundStart, minRttExpired := UpdateModel(env, acked, lost);
      UpdateMode(env, priorInFlight, lost != [], isRoundStart, minRttExpired);
    }

    /** OnCongestionEvent, for any lists of acked and lost packets.  Beyond the invariant: full bandwidth and
        recovery are never unlearned, and before full bandwidth the window does not shrink. */
    method OnCongestionEvent(priorInFlight: nat, env: Env, acked: seq<PacketInfo>, lost: seq<PacketInfo>)
      requires Valid()
      modifies this, sampler, maxBandwidth, maxBandwidth.estimates
      ensures Valid() && old(sampler.totalBytesAcked) <= sampler.totalBytesAcked
      ensures WindowSet(config, old(Look()), Look(), env)
      ensures !isAtFullBandwidth ==> old(congestionWindow) <= congestionWindow
      ensures Shifts(old(Settings()), Settings(), env, acked, lost)
      ensures Untracked(acked, lost)
      ensures Counting(sampler.history) ==
                Counting(old(sampler.history)) + (Losses(lost) + Acks(config, env.now, acked))
      ensures Look() == AfterEvent(config, old(Look()), priorInFlight, env, acked, lost)
    {
      hide Counting, Losses, Acks, Shifts, BandwidthSampler.Valid, WindowedFilter.Valid, Sensible;
      hide BbrSender.FilterOk, BbrSender.RecoveryOk, BbrSender.ModeOk, BbrSender.WindowOk;
      hide BbrSender.Untracked, WindowSet, Observing, Windowed, BbrSender.Settings;
      var totalBytesAckedBefore := sampler.totalBytesAcked;
      WithinLimits();
      Shown();
      EventSets(config, Look(), priorInFlight, env, acked, lost);
      Observe(priorInFlight, env, acked, lost);
      Recalculate(totalBytesAckedBefore, TotalLength(lost), env);
      Shown();
    }
  }

  // ----- whole runs

  datatype Happening =
    | PacketSent(sentTime: int, bytesInFlight: nat, pn: nat, bytes: nat, retransmittable: bool)
    | Congestion(priorInFlight: nat, env: Env, acked: seq<PacketInfo>, lost: seq<PacketInfo>)

  function Observed(c: Config, h: Happening): seq<Event> {
    match h
    case PacketSent(sentTime, bytesInFlight, pn, bytes,
        retransmittable) => [Sent(sentTime, pn, bytes, bytesInFlight, retransmittable)]
    case Congestion(_, env, acked, lost) => Losses(lost) + Acks(c, env.now, acked)
  }

  /** Everything the sampler is told in a run. */
  function AllObserved(c: Config, hs: seq<Happening>): seq<Event> {
    if hs == [] then [] else AllObserved(c, hs[..|hs|-1]) + Observed(c, hs[|hs|-1])
  }

  lemma ObservedNext(c: Config, hs: seq<Happening>, i: nat)
    requires i < |hs|
    ensures AllObserved(c, hs[..i+1]) == AllObserved(c, hs[..i]) + Observed(c, hs[i])
  {
    assert hs[..i+1][..i] == hs[..i];
  }

  function Next(c: Config, s: State, h: Happening): State {
    match h
    case PacketSent(sentTime, bytesInFlight, pn, bytes, retransmittable) =>
      AfterSending(s, sentTime, bytesInFlight, pn, bytes, retransmittable)
    case Congestion(priorInFlight, env, acked, lost) => AfterEvent(c, s, priorInFlight, env, acked, lost)
  }

  /** The window stays within its limits and below the initial window plus what was acknowledged; STARTUP is not seen
      once full bandwidth was reached, DRAIN and PROBE_BW not before, and not before three rounds without growth. */
  predicate Sound(c: Config, s: State) {
    var t := s.control;
    && MIN_CONGESTION_WINDOW <= t.congestionWindow <= c.maxWindow
    && t.congestionWindow <= c.initialWindow + BytesAcked(s)
    && (t.isAtFullBandwidth ==> t.mode != Startup) && (t.mode == Drain || t.mode == ProbeBw ==> t.isAtFullBandwidth)
    && (t.isAtFullBandwidth && !c.exitStartupOnLoss ==> ROUNDS_WITHOUT_GROWTH <= t.roundsWithoutBandwidthGain)
    && t.cycleCurrentOffset < 8
    && (t.mode == ProbeBw && !c.drainToTarget ==> t.pacingGain == GAIN_CYCLE[t.cycleCurrentOffset])
    && (t.recoveryState != NotInRecovery && !(c.rateBasedStartup && t.mode == Startup) ==>
          MIN_CONGESTION_WINDOW <= t.recoveryWindow)
  }

  /** A round counts towards full bandwidth if its last sample was not app-limited; it either brought 25% growth over
      the mark or it did not. */
  predicate Counts(s: State, h: Happening, s': State) {
    h.Congestion? && RoundStarts(s.control, h.acked) && !s.control.isAtFullBandwidth && !s'.feed.appLimited
  }

  predicate Grew(s: State, h: Happening, s': State) {
    Counts(s, h, s') && Bandwidth(s'.feed.estimates) >= s.control.bandwidthAtLastRound * 5 / 4
  }

  predicate Flat(s: State, h: Happening, s': State) {
    Counts(s, h, s') && Bandwidth(s'.feed.estimates) < s.control.bandwidthAtLastRound * 5 / 4
  }

  /** Full bandwidth is found in a round without growth: in the third one in a row, or in recovery if so configured. */
  predicate Learns(c: Config, s: State, h: Happening, s': State) {
    && s'.control.roundsWithoutBandwidthGain ==
       (if Grew(s, h, s') then 0 else s.control.roundsWithoutBandwidthGain + if Flat(s, h, s') then 1 else 0)
    && s'.control.bandwidthAtLastRound ==
       (if Grew(s, h, s') then Bandwidth(s'.feed.estimates) else s.control.bandwidthAtLastRound)
    && (s'.control.isAtFullBandwidth <==>
        s.control.isAtFullBandwidth
        || (Flat(s, h, s') && (ROUNDS_WITHOUT_GROWTH <= s'.control.roundsWithoutBandwidthGain
                               || (c.exitStartupOnLoss && s'.control.recoveryState != NotInRecovery))))
  }

  /** STARTUP ends with full bandwidth and DRAIN once the queue is drained; otherwise the minimal RTT decides. */
  predicate Turns(s: State, h: Happening, s': State) {
    if h.PacketSent? then s'.control.mode == s.control.mode
    else
      var drained := h.env.bytesInFlight <= Target(h.env.drainTarget);
      var rested := s.control.exitProbeRttAt.Some? && h.env.now >= s.control.exitProbeRttAt.value
                    && (RoundStarts(s.control, h.acked) || s.control.probeRttRoundPassed);
      var full := s'.control.isAtFullBandwidth;
      if s.control.mode == ProbeRtt then
        s'.control.mode == if !rested then ProbeRtt else if full then ProbeBw else Startup
      else if h.acked != [] && h.env.minRttExpired && !s.control.exitingQuiescence then s'.control.mode == ProbeRtt
      else if s.control.mode == ProbeBw || (full && drained) then s'.control.mode == ProbeBw
      else s'.control.mode == if full then Drain else Startup
  }

  /** Rounds are counted and end as they should; recovery begins with losses beside acknowledgements, turns to growth
      with the next round, and has its own window. */
  predicate Recovers(c: Config, s: Control, h: Happening, gained: nat, s': Control)
    requires h.Congestion?
  {
    var begins := h.acked != [] && (s.currentRoundTripEnd == 0 || h.acked[|h.acked|-1].pn > s.currentRoundTripEnd);
    var enters := s.recoveryState == NotInRecovery && h.acked != [] && h.lost != [];
    var window := if enters then 0 else s.recoveryWindow;
    var left := if window >= TotalLength(h.lost) then window - TotalLength(h.lost) else 1460;
    var room := h.env.bytesInFlight + gained;
    && s'.roundTripCount == s.roundTripCount + (if begins then 1 else 0)
    && s'.currentRoundTripEnd ==
       (if enters then s.lastSendPacket else if begins then h.acked[|h.acked|-1].pn else s.currentRoundTripEnd)
    && s'.recoveryState ==
       (if enters then Conservation
        else if s.recoveryState == Conservation && begins then Growth else s.recoveryState)
    && s'.endRecoveryAt == (if h.acked != [] && h.lost == [] then s.lastSendPacket else s.endRecoveryAt)
    && s'.recoveryWindow ==
       (if s'.recoveryState == NotInRecovery || (c.rateBasedStartup && s'.mode == Startup) then window
        else if window == 0 then Max(room, 4 * 1460)
        else Max(Max(left + (if s'.recoveryState == Growth then gained else 0), room), 4 * 1460))
    && s'.lastSendPacket == s.lastSendPacket && !s'.exitingQuiescence
  }

  /** The pacing gain is that of the mode and, in PROBE_BW, that of the phase: the phase of high gain lasts until the
      target is reached or packets are lost, the one of low gain until the queue is drained, the others an RTT. */
  predicate Paces(c: Config, s: Control, h: Happening, s': Control)
    requires h.Congestion?
  {
    var drained := h.env.bytesInFlight <= Target(h.env.drainTarget);
    var filling := s.pacingGain > 1000 && h.lost == [] && h.priorInFlight < Target(h.env.gainTarget);
    var advance := (s.pacingGain < 1000 && drained) || (h.env.rttPassed && !filling);
    if s'.mode != s.mode then
      match s'.mode
      case Startup => s'.pacingGain == HIGH_GAIN
      case Drain => s'.pacingGain == DRAIN_GAIN
      case ProbeRtt => s'.pacingGain == 1000
      case ProbeBw => StartsCycle(s', h.env)
    else if s.mode == ProbeBw then
      && s'.cycleCurrentOffset == (if advance then (s.cycleCurrentOffset + 1) % 8 else s.cycleCurrentOffset)
      && var next := if s'.cycleCurrentOffset < 8 then GAIN_CYCLE[s'.cycleCurrentOffset] else 0;
         var held := c.drainToTarget && s.pacingGain < 1000 && next == 1000 && !drained;
         s'.pacingGain == if advance && !held then next else s.pacingGain
    else s'.pacingGain == s.pacingGain
  }

  lemma ModelledRecovers(c: Config, s: State, h: Happening)
    requires h.Congestion?
    ensures var s', begins := Modelled(c, s, h.env, h.acked, h.lost).control, RoundStarts(s.control, h.acked);
            var enters := s.control.recoveryState == NotInRecovery && h.acked != [] && h.lost != [];
            && s'.roundTripCount == s.control.roundTripCount + (if begins then 1 else 0)
            && s'.currentRoundTripEnd ==
               (if enters then s.control.lastSendPacket
                else if begins then h.acked[|h.acked|-1].pn else s.control.currentRoundTripEnd)
            && s'.recoveryState ==
               (if enters then Conservation
                else if s.control.recoveryState == Conservation && begins then Growth else s.control.recoveryState)
            && s'.endRecoveryAt ==
               (if h.acked != [] && h.lost == [] then s.control.lastSendPacket else s.control.endRecoveryAt)
            && s'.recoveryWindow == (if enters then 0 else s.control.recoveryWindow)
            && s'.lastSendPacket == s.control.lastSendPacket
  {
    hide Fed, Discarded;
  }

  lemma EventRecovers(c: Config, s: State, h: Happening)
    requires h.Congestion?
    ensures var s' := AfterEvent(c, s, h.priorInFlight, h.env, h.acked, h.lost);
            Recovers(c, s.control, h, Gained(BytesAcked(s), BytesAcked(s')), s'.control)
  {
    hide Modelled, Observing, Measured, Exited, Rested, Cycled, NextWindow, Bandwidth;
    ModelledRecovers(c, s, h);
    var m := Modelled(c, s, h.env, h.acked, h.lost);
    var t, u, v := Stages(c, s, h.priorInFlight, h.env, h.acked, h.lost);
    MeasuredKeeps(c, t, m.feed.appLimited, Bandwidth(m.feed.estimates));
    ExitedKeeps(u, h.env);
    RestedKeeps(c, v, h.env, RoundStarts(s.control, h.acked), h.acked != [] && h.env.minRttExpired);
    RestedRests(c, v, h.env, RoundStarts(s.control, h.acked), h.acked != [] && h.env.minRttExpired);
  }

  // A sender that has just entered PROBE_BW.
  predicate StartsCycle(s: Control, env: Env) {
    && s.cycleCurrentOffset == (if env.random % 7 == 0 then 0 else env.random % 7 + 1)
    && s.pacingGain == GAIN_CYCLE[s.cycleCurrentOffset]
  }

  lemma ExitedPaces(s: Control, env: Env)
    ensures var t := Exited(s, env);
            && (t.mode == s.mode ==> t == s)
            && (t.mode != s.mode ==> t.mode == Drain || t.mode == ProbeBw)
            && (t.mode != s.mode && t.mode == Drain ==> t.pacingGain == DRAIN_GAIN)
            && (t.mode != s.mode && t.mode == ProbeBw ==> StartsCycle(t, env))
  {
    hide Target;
  }

  lemma RestedPaces(c: Config, s: Control, env: Env, isRoundStart: bool, minRttExpired: bool)
    ensures var t := Rested(c, s, env, isRoundStart, minRttExpired);
            && (t.mode == s.mode ==> t.pacingGain == s.pacingGain && t.cycleCurrentOffset == s.cycleCurrentOffset)
            && (t.mode != s.mode ==> t.mode != Drain && (s.mode == ProbeRtt || t.mode == ProbeRtt))
            && (t.mode != s.mode && t.mode == ProbeRtt ==> t.pacingGain == 1000)
            && (t.mode != s.mode && t.mode == Startup ==> t.pacingGain == HIGH_GAIN)
            && (t.mode != s.mode && t.mode == ProbeBw ==> StartsCycle(t, env))
  {
    hide ProbeRttWindow;
  }

  lemma ObservingPaces(c: Config, s: State, h: Happening)
    requires h.Congestion? && Sound(c, s)
    ensures Paces(c, s.control, h, Observing(c, s, h.priorInFlight, h.env, h.acked, h.lost).control)
  {
    hide Modelled, Observing, Measured, Exited, Rested, RoundStarts, Target, Bandwidth;
    ModelledKeeps(c, s, h.env, h.acked, h.lost);
    var m := Modelled(c, s, h.env, h.acked, h.lost);
    var t, u, v := Stages(c, s, h.priorInFlight, h.env, h.acked, h.lost);
    MeasuredKeeps(c, t, m.feed.appLimited, Bandwidth(m.feed.estimates));
    ExitedKeeps(u, h.env);
    ExitedPaces(u, h.env);
    RestedPaces(c, v, h.env, RoundStarts(s.control, h.acked), h.acked != [] && h.env.minRttExpired);
  }

  lemma ObservingLearns(c: Config, s: State, h: Happening)
    requires h.Congestion?
    ensures Learns(c, s, h, Observing(c, s, h.priorInFlight, h.env, h.acked, h.lost))
  {
    hide Modelled, Observing, Exited, Rested, Bandwidth, RoundStarts;
    var t, u, v := Stages(c, s, h.priorInFlight, h.env, h.acked, h.lost);
    ModelledKeeps(c, s, h.env, h.acked, h.lost);
    ExitedKeeps(u, h.env);
    RestedKeeps(c, v, h.env, RoundStarts(s.control, h.acked), h.acked != [] && h.env.minRttExpired);
  }

  lemma ObservingTurns(c: Config, s: State, h: Happening)
    requires h.Congestion? && Sound(c, s)
    ensures Turns(s, h, Observing(c, s, h.priorInFlight, h.env, h.acked, h.lost))
  {
    hide Modelled, Observing, Measured, Rested, RoundStarts, Target, Bandwidth;
    var t, u, v := Stages(c, s, h.priorInFlight, h.env, h.acked, h.lost);
    var m := Modelled(c, s, h.env, h.acked, h.lost);
    ModelledKeeps(c, s, h.env, h.acked, h.lost);
    MeasuredKeeps(c, t, m.feed.appLimited, Bandwidth(m.feed.estimates));
    ExitedKeeps(u, h.env);
    RestedKeeps(c, v, h.env, RoundStarts(s.control, h.acked), h.acked != [] && h.env.minRttExpired);
    RestedRests(c, v, h.env, RoundStarts(s.control, h.acked), h.acked != [] && h.env.minRttExpired);
  }

  /** One step.  An event sets the window, grows it by no more than was acknowledged, does not shrink it before full
      bandwidth, and never unlearns full bandwidth or recovery; sending leaves all of that alone. */
  predicate Moves(c: Config, s: State, h: Happening, s': State) {
    && s' == Next(c, s, h) && BytesAcked(s) <= BytesAcked(s')
    && s'.control.congestionWindow <= s.control.congestionWindow + (BytesAcked(s') - BytesAcked(s))
    && (!s'.control.isAtFullBandwidth ==> s.control.congestionWindow <= s'.control.congestionWindow)
    && Learns(c, s, h, s') && Turns(s, h, s')
    && (s.control.recoveryState != NotInRecovery ==> s'.control.recoveryState != NotInRecovery)
    && (h.Congestion? ==>
          && WindowSet(c, s, s', h.env) && Shifts(s.control, s'.control, h.env, h.acked, h.lost)
          && Recovers(c, s.control, h, Gained(BytesAcked(s), BytesAcked(s')), s'.control)
          && Paces(c, s.control, h, s'.control))
    && (h.PacketSent? ==>
          s'.control == s.control.(lastSendPacket := h.pn, exitingQuiescence :=
            s.control.exitingQuiescence || (h.bytesInFlight == 0 && s.feed.sampling.isAppLimited)))
  }

  /** The steps of a run, one after the other; what is acknowledged are the bytes of the packets in the ACKs that were
      tracked, each with the size it was sent with. */
  ghost predicate Follows(c: Config, hs: seq<Happening>, trace: seq<State>) {
    && 0 < |trace| <= |hs| + 1 && trace[0] == Start(c)
    && (forall i :: 0 <= i < |trace| ==>
          Sound(c, trace[i]) && BytesAcked(trace[i]) == AckedBytes(AllObserved(c, hs[..i])))
    && (forall i :: 0 <= i < |trace|-1 ==> Moves(c, trace[i], hs[i], trace[i+1]))
  }

  lemma FollowsOn(c: Config, hs: seq<Happening>, trace: seq<State>, s: State)
    requires Follows(c, hs, trace) && |trace| <= |hs| && Sound(c, s) && Moves(c, trace[|trace|-1], hs[|trace|-1], s)
    requires BytesAcked(s) == AckedBytes(AllObserved(c, hs[..|trace|]))
    ensures Follows(c, hs, trace + [s])
  {
    hide Moves, Sound, AckedBytes, AllObserved, BytesAcked, Start;
    var t := trace + [s];
    forall i | 0 <= i < |t|-1 ensures Moves(c, t[i], hs[i], t[i+1]) {
      assert i < |trace|-1 ==> t[i] == trace[i] && t[i+1] == trace[i+1];
    }
  }

  /** Between any two points of a run the window grows by no more than is acknowledged in between, and as long as full
      bandwidth has not been reached it does not shrink. */
  lemma {:induction false} GrowsWithAcks(c: Config, hs: seq<Happening>, trace: seq<State>, i: nat, j: nat)
    requires Follows(c, hs, trace) && i <= j < |trace|
    ensures BytesAcked(trace[i]) <= BytesAcked(trace[j])
    ensures trace[j].control.congestionWindow <=
              trace[i].control.congestionWindow + (BytesAcked(trace[j]) - BytesAcked(trace[i]))
    ensures !trace[j].control.isAtFullBandwidth ==> !trace[i].control.isAtFullBandwidth
    ensures !trace[j].control.isAtFullBandwidth ==>
              trace[i].control.congestionWindow <= trace[j].control.congestionWindow
    ensures trace[i].control.recoveryState != NotInRecovery ==> trace[j].control.recoveryState != NotInRecovery
    decreases j
  {
    hide Next, WindowSet, Shifts, Recovers, Paces, AckedBytes, AllObserved, Sound, BytesAcked, Start;
    if i < j {
      GrowsWithAcks(c, hs, trace, i, j-1);
      assert Moves(c, trace[j-1], hs[j-1], trace[j-1+1]);
    }
  }

  predicate FlatAt(hs: seq<Happening>, trace: seq<State>, i: nat) {
    i < |hs| && i + 1 < |trace| && Flat(trace[i], hs[i], trace[i+1])
  }

  predicate GrewAt(hs: seq<Happening>, trace: seq<State>, i: nat) {
    i < |hs| && i + 1 < |trace| && Grew(trace[i], hs[i], trace[i+1])
  }

  /** Rounds without growth, one after the other and all before j, with none in between or since that brought growth. */
  ghost predicate InARow(hs: seq<Happening>, trace: seq<State>, rounds: seq<nat>, j: nat) {
    && (forall k :: 0 <= k < |rounds| ==> rounds[k] < j && FlatAt(hs, trace, rounds[k]))
    && (forall k, l :: 0 <= k < l < |rounds| ==> rounds[k] < rounds[l])
    && (rounds != [] ==> forall i: nat :: rounds[0] < i < j ==> !GrewAt(hs, trace, i))
  }

  lemma NoneInARow(c: Config, hs: seq<Happening>, trace: seq<State>, j: nat)
    requires Follows(c, hs, trace)
    ensures InARow(hs, trace, [], j) && trace[0].control.roundsWithoutBandwidthGain == 0
  {
  }

  lemma InARowOn(hs: seq<Happening>, trace: seq<State>, rounds: seq<nat>, j: nat)
    requires InARow(hs, trace, rounds, j) && !GrewAt(hs, trace, j)
    ensures InARow(hs, trace, rounds, j + 1)
    ensures FlatAt(hs, trace, j) ==> InARow(hs, trace, rounds + [j], j + 1)
  {
    hide FlatAt, GrewAt;
    var more := rounds + [j];
    assert forall k :: 0 <= k < |rounds| ==> more[k] == rounds[k];
  }

  lemma Counter(c: Config, hs: seq<Happening>, trace: seq<State>, j: nat)
    requires Follows(c, hs, trace) && j + 1 < |trace|
    ensures trace[j+1].control.roundsWithoutBandwidthGain ==
              if GrewAt(hs, trace, j) then 0
              else trace[j].control.roundsWithoutBandwidthGain + if FlatAt(hs, trace, j) then 1 else 0
  {
    hide Next, WindowSet, Shifts, Recovers, Paces, AckedBytes, AllObserved, Sound, BytesAcked, Flat, Grew, Turns, Start;
    assert Moves(c, trace[j], hs[j], trace[j+1]);
  }

  /** At every point of a run the counter stands for that many rounds without growth in a row. */
  lemma {:induction false} RoundsInARow(c: Config, hs: seq<Happening>, trace: seq<State>, j: nat)
    returns (rounds: seq<nat>)
    requires Follows(c, hs, trace) && j < |trace|
    ensures |rounds| == trace[j].control.roundsWithoutBandwidthGain && InARow(hs, trace, rounds, j)
  {
    hide Follows, FlatAt, GrewAt, InARow;
    rounds := [];
    NoneInARow(c, hs, trace, j);
    if 0 < j {
      rounds := RoundsInARow(c, hs, trace, j-1);
      Counter(c, hs, trace, j-1);
      if GrewAt(hs, trace, j-1) {
        rounds := [];
      } else {
        InARowOn(hs, trace, rounds, j-1);
        rounds := if FlatAt(hs, trace, j-1) then rounds + [j-1] else rounds;
      }
    }
  }

  /** Where a loss does not end STARTUP, full bandwidth means that three rounds in a row brought no growth. */
  lemma FullAfterThree(c: Config, hs: seq<Happening>, trace: seq<State>, j: nat) returns (rounds: seq<nat>)
    requires Follows(c, hs, trace) && j < |trace| && trace[j].control.isAtFullBandwidth && !c.exitStartupOnLoss
    ensures ROUNDS_WITHOUT_GROWTH <= |rounds| && InARow(hs, trace, rounds, j)
  {
    rounds := RoundsInARow(c, hs, trace, j);
    hide Moves, AckedBytes, AllObserved, InARow;
    assert Sound(c, trace[j]);
  }

  lemma LookIsSound(bbr: BbrSender)
    requires bbr.Valid()
    ensures bbr.maxBandwidth.estimates.Length == 3 && Sound(bbr.config, bbr.Look())
    ensures BytesAcked(bbr.Look()) == AckedBytes(Counting(bbr.sampler.history))
  {
    bbr.sampler.Totals();
    CountingCounts(bbr.sampler.history);
  }

  lemma SendingMoves(c: Config, s: State, h: Happening)
    requires h.PacketSent?
    ensures Moves(c, s, h, Next(c, s, h))
  {
  }

  // Setting the windows leaves what was learnt and decided alone.
  lemma EventDecides(c: Config, s: State, h: Happening)
    requires h.Congestion? && Sound(c, s)
    ensures var s' := AfterEvent(c, s, h.priorInFlight, h.env, h.acked, h.lost);
            Learns(c, s, h, s') && Turns(s, h, s') && Paces(c, s.control, h, s'.control)
  {
    hide Observing, NextWindow, NextRecoveryWindow, RoundStarts, Bandwidth, Target, Sound;
    ObservingLearns(c, s, h);
    ObservingTurns(c, s, h);
    ObservingPaces(c, s, h);
  }

  lemma EventMoves(c: Config, s: State, h: Happening)
    requires h.Congestion? && Sound(c, s) && BytesAcked(s) <= BytesAcked(Next(c, s, h))
    ensures Moves(c, s, h, Next(c, s, h))
  {
    hide AfterEvent, NextWindow, Learns, Turns, Paces, Recovers;
    EventSets(c, s, h.priorInFlight, h.env, h.acked, h.lost);
    EventDecides(c, s, h);
    EventRecovers(c, s, h);
    var s' := Next(c, s, h);
    NextWindowGrows(c, s.control.congestionWindow, Gained(BytesAcked(s), BytesAcked(s')), BytesAcked(s'),
                    s'.control.mode, s'.control.isAtFullBandwidth, h.env);
  }

  method Step(bbr: BbrSender, h: Happening)
    requires bbr.Valid() && bbr.maxBandwidth.estimates.Length == 3
    modifies bbr, bbr.sampler, bbr.maxBandwidth, bbr.maxBandwidth.estimates
    ensures bbr.Valid() && Moves(bbr.config, old(bbr.Look()), h, bbr.Look())
    ensures Counting(bbr.sampler.history) == Counting(old(bbr.sampler.history)) + Observed(bbr.config, h)
  {
    hide BbrSender.Valid, Counting, BbrSender.Untracked, Losses, Acks, Moves, AfterEvent, AfterSending, Sound;
    hide BbrSender.Settings, WindowSet, Shifts;
    ghost var s := bbr.Look();
    LookIsSound(bbr);
    match h
    case PacketSent(sentTime, bytesInFlight, pn, bytes, retransmittable) =>
      CountingPush(bbr.sampler.history, Sent(sentTime, pn, bytes, bytesInFlight, retransmittable));
      bbr.OnPacketSent(sentTime, bytesInFlight, pn, bytes, retransmittable);
      SendingMoves(bbr.config, s, h);
    case Congestion(priorInFlight, env, acked, lost) =>
      bbr.OnCongestionEvent(priorInFlight, env, acked, lost);
      EventMoves(bbr.config, s, h);
  }

  /** Over every run, each state is sound and each step moves as it should; the window handed out at the end is never
      below four segments. */
  method Run(config: Config, hs: seq<Happening>, probe: Env) returns (trace: seq<State>, handedOut: nat)
    requires Sensible(config)
    ensures |trace| == |hs| + 1 && Follows(config, hs, trace)
    ensures MIN_CONGESTION_WINDOW <= handedOut && HandsOut(config, trace[|hs|].control, probe, handedOut)
  {
    var bbr := new BbrSender(config);
    LookIsSound(bbr);
    trace := [bbr.Look()];
    for i := 0 to |hs|
      invariant bbr.Valid() && bbr.config == config && bbr.maxBandwidth.estimates.Length == 3
      invariant fresh(bbr) && fresh(bbr.sampler) && fresh(bbr.maxBandwidth) && fresh(bbr.maxBandwidth.estimates)
      invariant |trace| == i + 1 && trace[i] == bbr.Look() && Follows(config, hs, trace)
      invariant Counting(bbr.sampler.history) == AllObserved(config, hs[..i])
    {
      hide BbrSender.Valid, Counting, AckedBytes, AllObserved, Follows, Moves, Sound, BytesAcked, Start;
      ObservedNext(config, hs, i);
      Step(bbr, hs[i]);
      LookIsSound(bbr);
      FollowsOn(config, hs, trace, bbr.Look());
      trace := trace + [bbr.Look()];
    }
    handedOut := bbr.GetCongestionWindow(probe);
  }
}
