/**
 A STAMP session: the sender, the reflector, and the agent's measurement loop over them
 (libs/stamp/sender.go, libs/stamp/reflector.go, services/agent/executor_stamp_sender.go).

 The network is a function from the datagram sent to the one read back, if any, before the deadline. The
 error estimate of a party is its configured one as encoded, or None if its scale is out of range.
 Times are nanoseconds; a clock is read through a parameter.
 */
module StampSession {
  import opened Options
  import opened StampTime
  import opened StampPacket

  type Network = seq<Octet> -> Option<seq<Octet>>

  function Successor(n: Word): Word {
    (n + 1) % WORD
  }

  // ------------------------------------------------------------ the two parties

  function Reflection(estimate: Half, sequence: Word, p: SenderPacket, rx: int, tx: int): ReflectorPacket {
    ReflectorPacket(sequence, ToNtp(tx), estimate, ToNtp(rx), p.sequence, p.timestamp, p.errorEstimate, 1)
  }

  /** What a reflector makes of a datagram that reached it. */
  function Mirror(estimate: Option<Half>, sequence: Word, datagram: seq<Octet>, rx: int, tx: int): Option<seq<Octet>> {
    match DecodeSender(datagram)
    case None => None
    case Some(p) =>
      if estimate.None? then None else Some(ReflectorWire(Reflection(estimate.value, sequence, p, rx, tx)))
  }

  class Reflector {
    const estimate: Option<Half>
    var sequence: Word

    constructor (estimate: Option<Half>)
      ensures this.estimate == estimate && sequence == 0
    {
      this.estimate := estimate;
      sequence := 0;
    }

    /** One turn of the serving loop: received at `rx`, sent back at `tx`. */
    method Reflect(datagram: seq<Octet>, rx: int, tx: int) returns (reply: Option<seq<Octet>>)
      modifies this
      ensures reply == Mirror(estimate, old(sequence), datagram, rx, tx)
      ensures sequence == if reply.Some? then Successor(old(sequence)) else old(sequence)
    {
      if |datagram| < PACKET_SIZE {
        return None;
      }
      var p := DecodeSender(datagram);
      if p.None? || estimate.None? {
        return None;
      }
      var packet := Reflection(estimate.value, sequence, p.value, rx, tx);
      sequence := Successor(sequence);
      var buf := EncodeReflector(packet);
      reply := Some(buf[..]);
    }
  }

  function Request(estimate: Half, sequence: Word, now: int): seq<Octet> {
    SenderWire(SenderPacket(sequence, ToNtp(now), estimate))
  }

  /** What a sender with this counter gets at time `now`. */
  function Answer(estimate: Option<Half>, sequence: Word, now: int, network: Network): Option<ReflectorPacket> {
    if estimate.None? then None
    else
      match network(Request(estimate.value, sequence, now))
      case None => None
      case Some(datagram) => DecodeReflector(datagram)
  }

  function Counted(sequence: Word, answer: Option<ReflectorPacket>): Word {
    if answer.Some? then Successor(sequence) else sequence
  }

  class Sender {
    const estimate: Option<Half>
    var sequence: Word

    constructor (estimate: Option<Half>)
      ensures this.estimate == estimate && sequence == 0
    {
      this.estimate := estimate;
      sequence := 0;
    }

    /** Counts successes only: a lost packet's number is used again. */
    method Send(now: int, network: Network) returns (answer: Option<ReflectorPacket>)
      modifies this
      ensures answer == Answer(estimate, old(sequence), now, network)
      ensures sequence == Counted(old(sequence), answer)
    {
      if estimate.None? {
        return None;
      }
      var buf := EncodeSender(SenderPacket(sequence, ToNtp(now), estimate.value));
      var datagram := network(buf[..]);
      if datagram.None? {
        return None;
      }
      if |datagram.value| < PACKET_SIZE {
        return None;
      }
      answer := DecodeReflector(datagram.value);
      sequence := Successor(sequence);
    }
  }

  // ------------------------------------------------------------- one exchange

  /** What became of a packet, with the reflector's clock readings. */
  datatype Trip = OutboundLost | ReplyLost(rx: int, tx: int) | Returned(rx: int, tx: int)

  function Across(estimate: Option<Half>, sequence: Word, trip: Trip): Network {
    datagram =>
      if trip.Returned? then Mirror(estimate, sequence, datagram, trip.rx, trip.tx) else None
  }

  /** Through both codecs and both parties, the reply to a call carries that call's own sequence number,
      time and error estimate, and the reflector's counter and times. */
  lemma ReplyEchoesItsCall(
    mine: Half, theirs: Half, sequence: Word, reflected: Word, now: int, rx: int, tx: int)
    ensures Answer(Some(mine), sequence, now, Across(Some(theirs), reflected, Returned(rx, tx))) ==
      Some(ReflectorPacket(reflected, ToNtp(tx), theirs, ToNtp(rx), sequence, ToNtp(now), mine, 1))
  {
    hide SenderWire, ReflectorWire, DecodeSender, DecodeReflector, ToNtp;
    var p := SenderPacket(sequence, ToNtp(now), mine);
    SenderRoundTrip(p, []);
    assert SenderWire(p) + [] == SenderWire(p);
    var q := Reflection(theirs, reflected, p, rx, tx);
    ReflectorRoundTrip(q, []);
    assert ReflectorWire(q) + [] == ReflectorWire(q);
  }

  // ----------------------------------------------------------------- delays

  datatype Delays = Delays(forward: int, backward: int, rtt: int)

  function DelaysOf(answer: ReflectorPacket, t4: int): Delays {
    var t1, t2, t3 := FromNtp(answer.senderTimestamp), FromNtp(answer.received), FromNtp(answer.timestamp);
    Delays(t2 - t1, t4 - t3, (t4 - t1) - (t3 - t2))
  }

  lemma LostAtMostOne(t: int)
    ensures 0 <= Lost(t) <= 1
  {
  }

  /** Sent at t1, reflected between t2 and t3, back at t4, by one true clock; the reflector's clock is
      `offset` ahead. The reported round trip is the sum of the two delays and does not depend on the
      offset but for the nanoseconds that its clock readings lose. */
  lemma RoundTripIsTrue(
    mine: Half, theirs: Half, sequence: Word, reflected: Word, t1: int, t2: int, t3: int, t4: int, offset: int)
    requires InEra(t1) && InEra(t2 + offset) && InEra(t3 + offset)
    ensures var trip := Returned(t2 + offset, t3 + offset);
      var answer := Answer(Some(mine), sequence, t1, Across(Some(theirs), reflected, trip));
      && answer.Some?
      && var d := DelaysOf(answer.value, t4);
         && d.rtt == d.forward + d.backward
         && d.rtt == (t4 - t1) - (t3 - t2) + Lost(t1) + Lost(t3 + offset) - Lost(t2 + offset)
         && -1 <= d.rtt - ((t4 - t1) - (t3 - t2)) <= 2
         && d.forward == t2 - t1 + offset + Lost(t1) - Lost(t2 + offset)
         && d.backward == t4 - t3 - offset + Lost(t3 + offset)
  {
    hide ToNtp, FromNtp, InEra, Answer, Across, Lost;
    ReplyEchoesItsCall(mine, theirs, sequence, reflected, t1, t2 + offset, t3 + offset);
    RoundTrip(t1);
    RoundTrip(t2 + offset);
    RoundTrip(t3 + offset);
    LostAtMostOne(t1);
    LostAtMostOne(t2 + offset);
    LostAtMostOne(t3 + offset);
  }

  /** The bounds are reached, by a reflector whose clock is right. */
  lemma RoundTripBoundsAreReached(mine: Half, theirs: Half, sequence: Word, reflected: Word, t4: int)
    ensures var answer := Answer(Some(mine), sequence, 1, Across(Some(theirs), reflected, Returned(1953125, 1953126)));
      answer.Some? && DelaysOf(answer.value, t4).rtt == (t4 - 1) - (1953126 - 1953125) + 2
    ensures var answer := Answer(Some(mine), sequence, 0, Across(Some(theirs), reflected, Returned(1, 1953125)));
      answer.Some? && DelaysOf(answer.value, t4).rtt == (t4 - 0) - (1953125 - 1) - 1
  {
    hide Answer, Across, DelaysOf;
    RoundTripIsTrue(mine, theirs, sequence, reflected, 1, 1953125, 1953126, t4, 0);
    RoundTripIsTrue(mine, theirs, sequence, reflected, 0, 1, 1953125, t4, 0);
  }

  // ------------------------------------------------------------ the whole run

  datatype Probe = LostProbe(tx: int) | Probe(tx: int, rx: int, delays: Delays)

  function ProbeOf(started: int, answer: Option<ReflectorPacket>, t4: int): Probe {
    match answer
    case None => LostProbe(started)
    case Some(p) => Probe(FromNtp(p.senderTimestamp), t4, DelaysOf(p, t4))
  }

  /** The clock readings before, at and after each call. */
  datatype Clock = Clock(started: int, now: int, ended: int)

  datatype Run = Run(sequence: Word, probes: seq<Probe>)

  function RunAfter(estimate: Option<Half>, clocks: nat -> Clock, networks: nat -> Network, n: nat): (run: Run)
    ensures |run.probes| == n
  {
    if n == 0 then Run(0, [])
    else
      var run := RunAfter(estimate, clocks, networks, n - 1);
      var clock := clocks(n - 1);
      var answer := Answer(estimate, run.sequence, clock.now, networks(n - 1));
      Run(Counted(run.sequence, answer), run.probes + [ProbeOf(clock.started, answer, clock.ended)])
  }

  function Received(probes: seq<Probe>): (n: nat)
    ensures n <= |probes|
  {
    if probes == [] then 0
    else Received(probes[..|probes| - 1]) + if probes[|probes| - 1].Probe? then 1 else 0
  }

  const DEFAULT_COUNT := 10

  function Count(requested: int): nat {
    if requested <= 0 then DEFAULT_COUNT else requested
  }

  lemma NothingRun(estimate: Option<Half>, clocks: nat -> Clock, networks: nat -> Network)
    ensures RunAfter(estimate, clocks, networks, 0) == Run(0, []) && Received([]) == 0
  {
  }

  lemma RunOneMore(estimate: Option<Half>, clocks: nat -> Clock, networks: nat -> Network, i: nat)
    ensures
      var run, clock := RunAfter(estimate, clocks, networks, i), clocks(i);
      var answer := Answer(estimate, run.sequence, clock.now, networks(i));
      RunAfter(estimate, clocks, networks, i + 1) ==
      Run(Counted(run.sequence, answer), run.probes + [ProbeOf(clock.started, answer, clock.ended)])
  {
    hide Answer, ProbeOf, Counted;
  }

  lemma ReceivedOneMore(probes: seq<Probe>, probe: Probe, started: int, answer: Option<ReflectorPacket>, t4: int)
    requires probe == ProbeOf(started, answer, t4)
    ensures Received(probes + [probe]) == Received(probes) + if answer.Some? then 1 else 0
  {
    hide DelaysOf;
    assert (probes + [probe])[..|probes|] == probes;
  }

  function LossOf(lost: nat, sent: nat): real
    requires sent > 0
  {
    lost as real / sent as real
  }

  datatype Measurement = Measurement(probes: seq<Probe>, received: nat, loss: real)

  /** The measurement loop, with a sender of its own. `cancelled(i)` says whether the caller has given up by
      the time packet i is due; then nothing is reported, not even the probes so far. */
  method Execute(
    estimate: Option<Half>, requested: int, cancelled: nat -> bool, clocks: nat -> Clock, networks: nat -> Network)
    returns (result: Option<Measurement>)
    ensures result.None? <==> exists i :: 0 <= i < Count(requested) && cancelled(i)
    ensures result.Some? ==>
      var m := result.value;
      && |m.probes| == Count(requested) == (if requested <= 0 then 10 else requested)
      && m.probes == RunAfter(estimate, clocks, networks, |m.probes|).probes
      && m.received == Received(m.probes)
      && m.loss == LossOf(|m.probes| - m.received, |m.probes|)
      && m.loss * |m.probes| as real == (|m.probes| - m.received) as real
  {
    hide RunAfter, Answer, ProbeOf, Received, Counted;
    var sender := new Sender(estimate);
    var count := requested;
    if count <= 0 {
      count := DEFAULT_COUNT;
    }
    var probes: seq<Probe>, received := [], 0;
    NothingRun(estimate, clocks, networks);
    for i := 0 to count
      invariant sender.estimate == estimate && fresh(sender)
      invariant forall j :: 0 <= j < i ==> !cancelled(j)
      invariant Run(sender.sequence, probes) == RunAfter(estimate, clocks, networks, i)
      invariant received == Received(probes)
    {
      if cancelled(i) {
        return None;
      }
      var clock := clocks(i);
      var answer := sender.Send(clock.now, networks(i));
      var probe := ProbeOf(clock.started, answer, clock.ended);
      RunOneMore(estimate, clocks, networks, i);
      ReceivedOneMore(probes, probe, clock.started, answer, clock.ended);
      probes := probes + [probe];
      if answer.Some? {
        received := received + 1;
      }
    }
    return Some(Measurement(probes, received, LossOf(|probes| - received, |probes|)));
  }

  lemma SuccessorCounts(n: nat)
    ensures Successor(n % WORD) == (n + 1) % WORD
  {
  }

  /** The counter is the number of successes, modulo 2^32. */
  lemma {:induction false} CounterIsSuccesses(
    estimate: Option<Half>, clocks: nat -> Clock, networks: nat -> Network, n: nat)
    ensures var run := RunAfter(estimate, clocks, networks, n); run.sequence == Received(run.probes) % WORD
  {
    hide Answer, DelaysOf;
    if n > 0 {
      CounterIsSuccesses(estimate, clocks, networks, n - 1);
      var before := RunAfter(estimate, clocks, networks, n - 1).probes;
      var run := RunAfter(estimate, clocks, networks, n);
      assert run.probes[..n - 1] == before;
      SuccessorCounts(Received(before));
    }
  }

  function Arrivals(trips: nat -> Trip, n: nat): nat {
    if n == 0 then 0 else Arrivals(trips, n - 1) + if trips(n - 1).OutboundLost? then 0 else 1
  }

  /** A network that loses packets but never delivers a reply late: reply i is the reflection of packet
      i, made by a reflector that has counted every packet to reach it. */
  ghost predicate NothingLate(theirs: Half, networks: nat -> Network, trips: nat -> Trip, n: nat) {
    forall i :: 0 <= i < n ==> networks(i) == Across(Some(theirs), Arrivals(trips, i) % WORD, trips(i))
  }

  lemma {:induction false} ProbeAt(
    estimate: Option<Half>, clocks: nat -> Clock, networks: nat -> Network, n: nat, i: nat)
    requires i < n
    ensures RunAfter(estimate, clocks, networks, n).probes[i] ==
      ProbeOf(clocks(i).started,
              Answer(estimate, RunAfter(estimate, clocks, networks, i).sequence, clocks(i).now, networks(i)),
              clocks(i).ended)
  {
    hide Answer, ProbeOf;
    if i < n - 1 {
      ProbeAt(estimate, clocks, networks, n - 1, i);
    }
  }

  lemma MissingProbe(mine: Half, theirs: Half, sequence: Word, reflected: Word, clock: Clock, trip: Trip)
    requires !trip.Returned?
    ensures
      var answer := Answer(Some(mine), sequence, clock.now, Across(Some(theirs), reflected, trip));
      ProbeOf(clock.started, answer, clock.ended) == LostProbe(clock.started)
  {
    hide Request;
  }

  lemma ReturnedProbe(
    mine: Half, theirs: Half, sequence: Word, reflected: Word, clock: Clock, t2: int, t3: int, offset: int)
    requires InEra(clock.now) && InEra(t2 + offset) && InEra(t3 + offset)
    ensures var trip := Returned(t2 + offset, t3 + offset);
      var answer := Answer(Some(mine), sequence, clock.now, Across(Some(theirs), reflected, trip));
      var probe := ProbeOf(clock.started, answer, clock.ended);
      && probe.Probe?
      && probe.tx == clock.now - Lost(clock.now) && probe.rx == clock.ended
      && probe.delays.rtt == probe.delays.forward + probe.delays.backward
      && -1 <= probe.delays.rtt - ((clock.ended - clock.now) - (t3 - t2)) <= 2
  {
    hide ToNtp, FromNtp, InEra, Lost, DelaysOf, Answer, Across;
    RoundTripIsTrue(mine, theirs, sequence, reflected, clock.now, t2, t3, clock.ended, offset);
    ReplyEchoesItsCall(mine, theirs, sequence, reflected, clock.now, t2 + offset, t3 + offset);
    RoundTrip(clock.now);
  }

  /** Over a whole run, with any losses: a probe is reported lost exactly if its packet or its reply was,
      and every other one carries its own sending time and true delays, to the nanosecond bounds, whatever
      the reflector's clock says. */
  lemma EveryProbeIsTrue(
    mine: Half, theirs: Half, clocks: nat -> Clock, networks: nat -> Network, trips: nat -> Trip, n: nat, i: nat,
    t2: int, t3: int, offset: int)
    requires NothingLate(theirs, networks, trips, n) && i < n
    requires trips(i).Returned? ==> trips(i) == Returned(t2 + offset, t3 + offset)
    requires InEra(clocks(i).now) && InEra(t2 + offset) && InEra(t3 + offset)
    ensures var probe := RunAfter(Some(mine), clocks, networks, n).probes[i];
      var t1, t4 := clocks(i).now, clocks(i).ended;
      && (probe.LostProbe? <==> !trips(i).Returned?)
      && (probe.LostProbe? ==> probe.tx == clocks(i).started)
      && (probe.Probe? ==>
            && probe.tx == t1 - Lost(t1) && probe.rx == t4
            && probe.delays.rtt == probe.delays.forward + probe.delays.backward
            && -1 <= probe.delays.rtt - ((t4 - t1) - (t3 - t2)) <= 2)
  {
    hide RunAfter, InEra, Lost, Answer, Across, ProbeOf, Arrivals;
    ProbeAt(Some(mine), clocks, networks, n, i);
    var sequence := RunAfter(Some(mine), clocks, networks, i).sequence;
    var reflected := Arrivals(trips, i) % WORD;
    if trips(i).Returned? {
      ReturnedProbe(mine, theirs, sequence, reflected, clocks(i), t2, t3, offset);
    } else {
      MissingProbe(mine, theirs, sequence, reflected, clocks(i), trips(i));
    }
  }

  // ----------------------------------------------------------- late replies

  /** The sender does not compare sequence numbers, and comparing them would not help: a reply to a call
      that timed out has the number of the next call too. Only the echoed time tells the two apart, and
      it does so whenever they were sent at different times. */
  lemma LateReplyHasTheRightNumber(
    mine: Half, theirs: Half, sequence: Word, reflected: Word, first: int, second: int, rx: int, tx: int)
    requires InEra(first) && InEra(second) && first <= second
    ensures var late := Mirror(Some(theirs), reflected, Request(mine, sequence, first), rx, tx);
      var answer := Answer(Some(mine), Counted(sequence, None), second, _ => late);
      && answer.Some?
      && answer.value.senderSequence == sequence
      && (answer.value.senderTimestamp == ToNtp(second) <==> first == second)
  {
    hide ToNtp, FromNtp, SenderWire, ReflectorWire, DecodeSender, DecodeReflector, InEra;
    ReplyEchoesItsCall(mine, theirs, sequence, reflected, first, rx, tx);
    if first < second {
      OrderPreserving(first, second);
    }
  }
}
