/**
 STAMP packets in unauthenticated mode, 44 octets each (libs/stamp/packet.go,
 libs/stamp/error_estimate.go): sections 4.2.1 and 4.3.1 of RFC 8762, and the error estimate of
 section 4.1.2 of RFC 4656.
 */
module StampPacket {
  import opened Options
  import opened StampTime

  const PACKET_SIZE := 44

  type Octet = n: int | 0 <= n < 0x100

  type Half = n: int | 0 <= n < 0x1_0000

  datatype SenderPacket = SenderPacket(sequence: Word, timestamp: Timestamp, errorEstimate: Half)

  datatype ReflectorPacket = ReflectorPacket(
    sequence: Word, timestamp: Timestamp, errorEstimate: Half, received: Timestamp,
    senderSequence: Word, senderTimestamp: Timestamp, senderErrorEstimate: Half, senderTtl: Octet)

  // ---------------------------------------------------------------- big-endian

  function WordOctet(v: Word, i: nat): Octet
    requires i < 4
  {
    if i == 0 then v / 0x100_0000
    else if i == 1 then v / 0x1_0000 % 0x100
    else if i == 2 then v / 0x100 % 0x100
    else v % 0x100
  }

  function HalfOctet(v: Half, i: nat): Octet
    requires i < 2
  {
    if i == 0 then v / 0x100 else v % 0x100
  }

  function MakeWord(a: Octet, b: Octet, c: Octet, d: Octet): Word {
    ((a * 0x100 + b) * 0x100 + c) * 0x100 + d
  }

  function MakeHalf(a: Octet, b: Octet): Half {
    a * 0x100 + b
  }

  function WordAt(b: seq<Octet>, at: nat): Word
    requires at + 4 <= |b|
  {
    MakeWord(b[at], b[at + 1], b[at + 2], b[at + 3])
  }

  function HalfAt(b: seq<Octet>, at: nat): Half
    requires at + 2 <= |b|
  {
    MakeHalf(b[at], b[at + 1])
  }

  lemma WordOfOctets(v: Word)
    ensures MakeWord(WordOctet(v, 0), WordOctet(v, 1), WordOctet(v, 2), WordOctet(v, 3)) == v
  {
    assert v == v / 0x100 * 0x100 + v % 0x100;
    assert v / 0x100 == v / 0x1_0000 * 0x100 + v / 0x100 % 0x100;
    assert v / 0x1_0000 == v / 0x100_0000 * 0x100 + v / 0x1_0000 % 0x100;
  }

  lemma OctetsOfWord(a: Octet, b: Octet, c: Octet, d: Octet)
    ensures var v := MakeWord(a, b, c, d);
      WordOctet(v, 0) == a && WordOctet(v, 1) == b && WordOctet(v, 2) == c && WordOctet(v, 3) == d
  {
    var v := MakeWord(a, b, c, d);
    assert v / 0x100 == (a * 0x100 + b) * 0x100 + c && v % 0x100 == d;
    assert v / 0x1_0000 == a * 0x100 + b && v / 0x100 % 0x100 == c;
    assert v / 0x100_0000 == a && v / 0x1_0000 % 0x100 == b;
  }

  lemma HalfOfOctets(v: Half)
    ensures MakeHalf(HalfOctet(v, 0), HalfOctet(v, 1)) == v
  {
  }

  lemma OctetsOfHalf(a: Octet, b: Octet)
    ensures HalfOctet(MakeHalf(a, b), 0) == a && HalfOctet(MakeHalf(a, b), 1) == b
  {
  }

  // --------------------------------------------------------------- the layouts

  /** Octet i of a sender packet: sequence number, timestamp, error estimate, zeros. */
  function SenderOctet(p: SenderPacket, i: nat): Octet {
    if i < 4 then WordOctet(p.sequence, i)
    else if i < 8 then WordOctet(p.timestamp.seconds, i - 4)
    else if i < 12 then WordOctet(p.timestamp.fraction, i - 8)
    else if i < 14 then HalfOctet(p.errorEstimate, i - 12)
    else 0
  }

  function ReflectorOctet(p: ReflectorPacket, i: nat): Octet {
    if i < 4 then WordOctet(p.sequence, i)
    else if i < 8 then WordOctet(p.timestamp.seconds, i - 4)
    else if i < 12 then WordOctet(p.timestamp.fraction, i - 8)
    else if i < 14 then HalfOctet(p.errorEstimate, i - 12)
    else if i < 16 then 0
    else if i < 20 then WordOctet(p.received.seconds, i - 16)
    else if i < 24 then WordOctet(p.received.fraction, i - 20)
    else if i < 28 then WordOctet(p.senderSequence, i - 24)
    else if i < 32 then WordOctet(p.senderTimestamp.seconds, i - 28)
    else if i < 36 then WordOctet(p.senderTimestamp.fraction, i - 32)
    else if i < 38 then HalfOctet(p.senderErrorEstimate, i - 36)
    else if i < 40 then 0
    else if i < 41 then p.senderTtl
    else 0
  }

  function SenderWire(p: SenderPacket): seq<Octet> {
    seq(PACKET_SIZE, i requires 0 <= i < PACKET_SIZE => SenderOctet(p, i))
  }

  function ReflectorWire(p: ReflectorPacket): seq<Octet> {
    seq(PACKET_SIZE, i requires 0 <= i < PACKET_SIZE => ReflectorOctet(p, i))
  }

  function DecodeSender(b: seq<Octet>): Option<SenderPacket> {
    if |b| < PACKET_SIZE then None
    else Some(SenderPacket(WordAt(b, 0), Timestamp(WordAt(b, 4), WordAt(b, 8)), HalfAt(b, 12)))
  }

  function DecodeReflector(b: seq<Octet>): Option<ReflectorPacket> {
    if |b| < PACKET_SIZE then None
    else
      Some(ReflectorPacket(
             WordAt(b, 0), Timestamp(WordAt(b, 4), WordAt(b, 8)), HalfAt(b, 12),
             Timestamp(WordAt(b, 16), WordAt(b, 20)), WordAt(b, 24),
             Timestamp(WordAt(b, 28), WordAt(b, 32)), HalfAt(b, 36), b[40]))
  }

  predicate ZeroIn(b: seq<Octet>, from: nat, to: nat)
    requires to <= |b|
  {
    forall i :: from <= i < to ==> b[i] == 0
  }

  /** The octets that must be zero. */
  predicate SenderPadding(b: seq<Octet>)
    requires |b| >= PACKET_SIZE
  {
    ZeroIn(b, 14, 44)
  }

  predicate ReflectorPadding(b: seq<Octet>)
    requires |b| >= PACKET_SIZE
  {
    ZeroIn(b, 14, 16) && ZeroIn(b, 38, 40) && ZeroIn(b, 41, 44)
  }

  // --------------------------------------------------------------- round trips

  /** The four octets of a word, put anywhere. */
  lemma WordReadsBack(b: seq<Octet>, at: nat, v: Word)
    requires at + 4 <= |b| && forall i :: 0 <= i < 4 ==> b[at + i] == WordOctet(v, i)
    ensures WordAt(b, at) == v
  {
    hide WordOctet, MakeWord;
    assert b[at + 0] == WordOctet(v, 0);
    WordOfOctets(v);
  }

  lemma HalfReadsBack(b: seq<Octet>, at: nat, v: Half)
    requires at + 2 <= |b| && forall i :: 0 <= i < 2 ==> b[at + i] == HalfOctet(v, i)
    ensures HalfAt(b, at) == v
  {
    hide HalfOctet, MakeHalf;
    assert b[at + 0] == HalfOctet(v, 0);
    HalfOfOctets(v);
  }

  lemma WordWritesBack(b: seq<Octet>, at: nat)
    requires at + 4 <= |b|
    ensures forall i :: 0 <= i < 4 ==> b[at + i] == WordOctet(WordAt(b, at), i)
  {
    hide WordOctet, MakeWord;
    OctetsOfWord(b[at], b[at + 1], b[at + 2], b[at + 3]);
  }

  lemma HalfWritesBack(b: seq<Octet>, at: nat)
    requires at + 2 <= |b|
    ensures forall i :: 0 <= i < 2 ==> b[at + i] == HalfOctet(HalfAt(b, at), i)
  {
    hide HalfOctet, MakeHalf;
    OctetsOfHalf(b[at], b[at + 1]);
  }

  /** A packet is read back from its octets, whatever follows them. */
  lemma SenderRoundTrip(p: SenderPacket, tail: seq<Octet>)
    ensures DecodeSender(SenderWire(p) + tail) == Some(p)
  {
    hide WordOctet, HalfOctet, WordAt, HalfAt;
    var b := SenderWire(p) + tail;
    WordReadsBack(b, 0, p.sequence);
    WordReadsBack(b, 4, p.timestamp.seconds);
    WordReadsBack(b, 8, p.timestamp.fraction);
    HalfReadsBack(b, 12, p.errorEstimate);
  }

  lemma ReflectorRoundTrip(p: ReflectorPacket, tail: seq<Octet>)
    ensures DecodeReflector(ReflectorWire(p) + tail) == Some(p)
  {
    hide WordOctet, HalfOctet, WordAt, HalfAt;
    var b := ReflectorWire(p) + tail;
    WordReadsBack(b, 0, p.sequence);
    WordReadsBack(b, 4, p.timestamp.seconds);
    WordReadsBack(b, 8, p.timestamp.fraction);
    HalfReadsBack(b, 12, p.errorEstimate);
    WordReadsBack(b, 16, p.received.seconds);
    WordReadsBack(b, 20, p.received.fraction);
    WordReadsBack(b, 24, p.senderSequence);
    WordReadsBack(b, 28, p.senderTimestamp.seconds);
    WordReadsBack(b, 32, p.senderTimestamp.fraction);
    HalfReadsBack(b, 36, p.senderErrorEstimate);
  }

  /** Octets are written back as they were read exactly when the padding is zero. */
  lemma SenderRewrites(b: seq<Octet>)
    requires |b| >= PACKET_SIZE
    ensures SenderWire(DecodeSender(b).value) == b[..PACKET_SIZE] <==> SenderPadding(b)
  {
    hide WordOctet, HalfOctet, WordAt, HalfAt;
    var p := DecodeSender(b).value;
    WordWritesBack(b, 0);
    WordWritesBack(b, 4);
    WordWritesBack(b, 8);
    HalfWritesBack(b, 12);
    forall i | 0 <= i < 14 ensures SenderOctet(p, i) == b[i] {
      var at := if i < 12 then i / 4 * 4 else 12;
      assert b[at + (i - at)] == b[i];
    }
    var wire := SenderWire(p);
    if SenderPadding(b) {
      assert forall i :: 0 <= i < PACKET_SIZE ==> wire[i] == b[..PACKET_SIZE][i];
    } else {
      var i :| 14 <= i < 44 && b[i] != 0;
      assert wire[i] != b[..PACKET_SIZE][i];
    }
  }

  lemma ReflectorOctetsOf(b: seq<Octet>, p: ReflectorPacket)
    requires |b| >= PACKET_SIZE && DecodeReflector(b) == Some(p)
    ensures forall i :: 0 <= i < 14 || 16 <= i < 38 || i == 40 ==> ReflectorOctet(p, i) == b[i]
  {
    hide WordOctet, HalfOctet, WordAt, HalfAt;
    WordWritesBack(b, 0);
    WordWritesBack(b, 4);
    WordWritesBack(b, 8);
    HalfWritesBack(b, 12);
    WordWritesBack(b, 16);
    WordWritesBack(b, 20);
    WordWritesBack(b, 24);
    WordWritesBack(b, 28);
    WordWritesBack(b, 32);
    HalfWritesBack(b, 36);
    forall i | 0 <= i < 14 || 16 <= i < 38 || i == 40 ensures ReflectorOctet(p, i) == b[i] {
      var at := if i < 12 || 16 <= i < 36 then i / 4 * 4 else if i < 14 then 12 else 36;
      assert i < 40 ==> b[at + (i - at)] == b[i];
    }
  }

  lemma ReflectorRewrites(b: seq<Octet>)
    requires |b| >= PACKET_SIZE
    ensures ReflectorWire(DecodeReflector(b).value) == b[..PACKET_SIZE] <==> ReflectorPadding(b)
  {
    hide WordOctet, HalfOctet, WordAt, HalfAt;
    var p := DecodeReflector(b).value;
    ReflectorOctetsOf(b, p);
    var wire := ReflectorWire(p);
    if ReflectorPadding(b) {
      assert forall i :: 0 <= i < PACKET_SIZE ==> wire[i] == b[..PACKET_SIZE][i];
    } else {
      var i :| (14 <= i < 16 || 38 <= i < 40 || 41 <= i < 44) && b[i] != 0;
      assert wire[i] != b[..PACKET_SIZE][i];
    }
  }

  // ---------------------------------------------------------- where things are

  /** The number that `count` octets spell from `at` on, the most significant one first. */
  function BigEndian(b: seq<Octet>, at: nat, count: nat): nat
    requires at + count <= |b|
  {
    if count == 0 then 0 else BigEndian(b, at, count - 1) * 0x100 + b[at + count - 1]
  }

  lemma WordSpells(b: seq<Octet>, at: nat)
    requires at + 4 <= |b|
    ensures WordAt(b, at) == BigEndian(b, at, 4)
  {
    assert BigEndian(b, at, 1) == b[at];
    assert BigEndian(b, at, 2) == b[at] as int * 0x100 + b[at + 1];
  }

  lemma HalfSpells(b: seq<Octet>, at: nat)
    requires at + 2 <= |b|
    ensures HalfAt(b, at) == BigEndian(b, at, 2)
  {
    assert BigEndian(b, at, 1) == b[at];
  }

  /** The octet positions of section 4.2.1 of RFC 8762. */
  predicate SenderFields(b: seq<Octet>, p: SenderPacket)
    requires |b| >= 44
  {
    && BigEndian(b, 0, 4) == p.sequence
    && BigEndian(b, 4, 4) == p.timestamp.seconds && BigEndian(b, 8, 4) == p.timestamp.fraction
    && BigEndian(b, 12, 2) == p.errorEstimate
  }

  /** The octet positions of section 4.3.1 of RFC 8762. */
  predicate ReflectorFields(b: seq<Octet>, p: ReflectorPacket)
    requires |b| >= 44
  {
    && BigEndian(b, 0, 4) == p.sequence
    && BigEndian(b, 4, 4) == p.timestamp.seconds && BigEndian(b, 8, 4) == p.timestamp.fraction
    && BigEndian(b, 12, 2) == p.errorEstimate
    && BigEndian(b, 16, 4) == p.received.seconds && BigEndian(b, 20, 4) == p.received.fraction
    && BigEndian(b, 24, 4) == p.senderSequence
    && BigEndian(b, 28, 4) == p.senderTimestamp.seconds && BigEndian(b, 32, 4) == p.senderTimestamp.fraction
    && BigEndian(b, 36, 2) == p.senderErrorEstimate
    && b[40] == p.senderTtl
  }

  /** Exactly what has 44 octets is decoded, and into the numbers that stand at the fields' places. */
  lemma SenderReads(b: seq<Octet>, p: SenderPacket)
    ensures DecodeSender(b) == Some(p) <==> |b| >= 44 && SenderFields(b, p)
  {
    hide WordAt, HalfAt, BigEndian;
    if |b| >= 44 {
      WordSpells(b, 0);
      WordSpells(b, 4);
      WordSpells(b, 8);
      HalfSpells(b, 12);
    }
  }

  lemma ReflectorReads(b: seq<Octet>, p: ReflectorPacket)
    ensures DecodeReflector(b) == Some(p) <==> |b| >= 44 && ReflectorFields(b, p)
  {
    hide WordAt, HalfAt, BigEndian;
    if |b| >= 44 {
      WordSpells(b, 0);
      WordSpells(b, 4);
      WordSpells(b, 8);
      HalfSpells(b, 12);
      WordSpells(b, 16);
      WordSpells(b, 20);
      WordSpells(b, 24);
      WordSpells(b, 28);
      WordSpells(b, 32);
      HalfSpells(b, 36);
    }
  }

  lemma SenderWireSpells(p: SenderPacket)
    ensures |SenderWire(p)| == 44 && SenderFields(SenderWire(p), p) && ZeroIn(SenderWire(p), 14, 44)
  {
    hide SenderFields, DecodeSender;
    SenderRoundTrip(p, []);
    assert SenderWire(p) + [] == SenderWire(p);
    SenderReads(SenderWire(p), p);
  }

  lemma ReflectorWireSpells(p: ReflectorPacket)
    ensures
      var b := ReflectorWire(p);
      |b| == 44 && ReflectorFields(b, p) && ZeroIn(b, 14, 16) && ZeroIn(b, 38, 40) && ZeroIn(b, 41, 44)
  {
    hide ReflectorFields, DecodeReflector;
    ReflectorRoundTrip(p, []);
    assert ReflectorWire(p) + [] == ReflectorWire(p);
    ReflectorReads(ReflectorWire(p), p);
  }

  // ------------------------------------------------------------------- buffers

  method PutWord(buf: array<Octet>, at: nat, v: Word)
    requires at + 4 <= buf.Length
    modifies buf
    ensures forall i :: 0 <= i < buf.Length ==>
      buf[i] == if at <= i < at + 4 then WordOctet(v, i - at) else old(buf[i])
  {
    buf[at] := v / 0x100_0000;
    buf[at + 1] := v / 0x1_0000 % 0x100;
    buf[at + 2] := v / 0x100 % 0x100;
    buf[at + 3] := v % 0x100;
  }

  method PutHalf(buf: array<Octet>, at: nat, v: Half)
    requires at + 2 <= buf.Length
    modifies buf
    ensures forall i :: 0 <= i < buf.Length ==>
      buf[i] == if at <= i < at + 2 then HalfOctet(v, i - at) else old(buf[i])
  {
    buf[at] := v / 0x100;
    buf[at + 1] := v % 0x100;
  }

  method EncodeSender(p: SenderPacket) returns (buf: array<Octet>)
    ensures fresh(buf) && buf[..] == SenderWire(p)
    ensures buf.Length == 44 && SenderFields(buf[..], p) && ZeroIn(buf[..], 14, 44)
  {
    hide WordOctet, HalfOctet, SenderFields, ZeroIn;
    buf := new Octet[PACKET_SIZE](_ => 0);
    PutWord(buf, 0, p.sequence);
    PutWord(buf, 4, p.timestamp.seconds);
    PutWord(buf, 8, p.timestamp.fraction);
    PutHalf(buf, 12, p.errorEstimate);
    SenderWireSpells(p);
  }

  method EncodeReflector(p: ReflectorPacket) returns (buf: array<Octet>)
    ensures fresh(buf) && buf[..] == ReflectorWire(p)
    ensures buf.Length == 44 && ReflectorFields(buf[..], p)
    ensures ZeroIn(buf[..], 14, 16) && ZeroIn(buf[..], 38, 40) && ZeroIn(buf[..], 41, 44)
  {
    hide WordOctet, HalfOctet, ReflectorFields, ZeroIn;
    buf := new Octet[PACKET_SIZE](_ => 0);
    PutWord(buf, 0, p.sequence);
    PutWord(buf, 4, p.timestamp.seconds);
    PutWord(buf, 8, p.timestamp.fraction);
    PutHalf(buf, 12, p.errorEstimate);
    PutWord(buf, 16, p.received.seconds);
    PutWord(buf, 20, p.received.fraction);
    PutWord(buf, 24, p.senderSequence);
    PutWord(buf, 28, p.senderTimestamp.seconds);
    PutWord(buf, 32, p.senderTimestamp.fraction);
    PutHalf(buf, 36, p.senderErrorEstimate);
    buf[40] := p.senderTtl;
    ReflectorWireSpells(p);
  }

  // ------------------------------------------------------------ error estimate

  datatype ErrorEstimate = ErrorEstimate(sync: bool, z: bool, scale: bv8, multiplier: bv8)

  function SyncBit(sync: bool): bv16 {
    if sync then 0x8000 else 0
  }

  function ScaleBits(scale: bv8): bv16 {
    (scale as bv16 & 0x3F) << 8
  }

  function MultiplierBits(multiplier: bv8): bv16 {
    multiplier as bv16
  }

  function Join(sync: bv16, scale: bv16, multiplier: bv16): bv16 {
    sync | scale | multiplier
  }

  function EncodedEstimate(e: ErrorEstimate): bv16 {
    Join(SyncBit(e.sync), ScaleBits(e.scale), MultiplierBits(e.multiplier))
  }

  predicate SyncOf(v: bv16) {
    v & 0x8000 != 0
  }

  predicate ZOf(v: bv16) {
    v & 0x4000 != 0
  }

  function ScaleOf(v: bv16): bv8 {
    ((v & 0x3F00) >> 8) as bv8
  }

  function MultiplierOf(v: bv16): bv8 {
    (v & 0xFF) as bv8
  }

  function DecodeEstimate(v: bv16): ErrorEstimate {
    ErrorEstimate(SyncOf(v), ZOf(v), ScaleOf(v), MultiplierOf(v))
  }

  /** The scale has six bits. */
  predicate ScaleFits(scale: bv8) {
    scale <= 63
  }

  function LowSix(scale: bv8): bv8 {
    scale & 0x3F
  }

  /** The constructor's check on the scale is what makes an estimate survive the wire. */
  function NewErrorEstimate(sync: bool, scale: bv8, multiplier: bv8): Option<ErrorEstimate> {
    if !ScaleFits(scale) then None else Some(ErrorEstimate(sync, false, scale, multiplier))
  }

  lemma PackedFlags(sync: bool, scale: bv8, multiplier: bv8)
    ensures var v := Join(SyncBit(sync), ScaleBits(scale), MultiplierBits(multiplier));
      SyncOf(v) == sync && !ZOf(v)
  {
  }

  lemma PackedScale(sync: bool, scale: bv8, multiplier: bv8)
    ensures ScaleOf(Join(SyncBit(sync), ScaleBits(scale), MultiplierBits(multiplier))) == LowSix(scale)
  {
  }

  lemma PackedMultiplier(sync: bool, scale: bv8, multiplier: bv8)
    ensures MultiplierOf(Join(SyncBit(sync), ScaleBits(scale), MultiplierBits(multiplier))) == multiplier
  {
  }

  /** The estimate that is read back: its Z bit is clear, and of its scale six bits are left. */
  function Clipped(e: ErrorEstimate): ErrorEstimate {
    ErrorEstimate(e.sync, false, LowSix(e.scale), e.multiplier)
  }

  lemma EncodedIsClipped(e: ErrorEstimate)
    ensures DecodeEstimate(EncodedEstimate(e)) == Clipped(e)
  {
    hide SyncBit, ScaleBits, MultiplierBits, SyncOf, ZOf, ScaleOf, MultiplierOf, Join, LowSix;
    PackedFlags(e.sync, e.scale, e.multiplier);
    PackedScale(e.sync, e.scale, e.multiplier);
    PackedMultiplier(e.sync, e.scale, e.multiplier);
  }

  lemma ClippedIsSameIff(scale: bv8)
    ensures LowSix(scale) == scale <==> ScaleFits(scale)
  {
  }

  /** An estimate survives the wire exactly if its constructor accepts it. */
  lemma EstimateRoundTrip(e: ErrorEstimate)
    ensures DecodeEstimate(EncodedEstimate(e)) == e <==> NewErrorEstimate(e.sync, e.scale, e.multiplier) == Some(e)
  {
    hide DecodeEstimate, EncodedEstimate, LowSix, ScaleFits;
    EncodedIsClipped(e);
    ClippedIsSameIff(e.scale);
  }

  function SyncField(v: bv16): bv16 {
    v & 0x8000
  }

  function ZField(v: bv16): bv16 {
    v & 0x4000
  }

  function ScaleField(v: bv16): bv16 {
    v & 0x3F00
  }

  function MultiplierField(v: bv16): bv16 {
    v & 0xFF
  }

  function Total(sync: bv16, z: bv16, scale: bv16, multiplier: bv16): bv16 {
    sync + z + scale + multiplier
  }

  function Times256(scale: bv8): bv16 {
    scale as bv16 * 0x100
  }

  /** What the bits of an estimate weigh: the S bit, the Z bit, six of scale, eight of multiplier. */
  function Weighed(e: ErrorEstimate): bv16 {
    Total(if e.sync then 0x8000 else 0, if e.z then 0x4000 else 0, Times256(e.scale), MultiplierBits(e.multiplier))
  }

  lemma ScaleWeighs(v: bv16)
    ensures Times256(ScaleOf(v)) == ScaleField(v) && ScaleOf(v) < 64
  {
  }

  lemma FlagsWeigh(v: bv16)
    ensures (if SyncOf(v) then 0x8000 else 0) == SyncField(v)
    ensures (if ZOf(v) then 0x4000 else 0) == ZField(v)
    ensures MultiplierBits(MultiplierOf(v)) == MultiplierField(v)
  {
  }

  lemma PartsAddUp(v: bv16)
    ensures Total(SyncField(v), ZField(v), ScaleField(v), MultiplierField(v)) == v
  {
  }

  lemma DecodedWeighs(v: bv16)
    ensures Weighed(DecodeEstimate(v)) == v && DecodeEstimate(v).scale < 64
  {
    hide SyncOf, ZOf, ScaleOf, MultiplierOf, Total, Times256, MultiplierBits;
    hide SyncField, ZField, ScaleField, MultiplierField;
    ScaleWeighs(v);
    FlagsWeigh(v);
    PartsAddUp(v);
  }

  lemma EncodedWeighs(e: ErrorEstimate)
    ensures EncodedEstimate(e) == Weighed(Clipped(e))
  {
    hide EncodedEstimate, Weighed, Clipped, DecodeEstimate;
    EncodedIsClipped(e);
    DecodedWeighs(EncodedEstimate(e));
  }

  /** What is written reads back as the estimate with its Z bit clear and its scale cut to six bits: as the
      estimate itself exactly if the constructor accepts it. */
  method EncodeEstimate(e: ErrorEstimate) returns (v: bv16)
    ensures DecodeEstimate(v) == Clipped(e)
    ensures DecodeEstimate(v) == e <==> NewErrorEstimate(e.sync, e.scale, e.multiplier) == Some(e)
    ensures v == EncodedEstimate(e) == Weighed(Clipped(e))
  {
    hide ScaleBits, MultiplierBits, DecodeEstimate, NewErrorEstimate, Clipped, Weighed;
    v := 0;
    if e.sync {
      v := v | 0x8000;
    }
    v := v | 0;
    v := v | ScaleBits(e.scale);
    v := v | MultiplierBits(e.multiplier);
    EncodedIsClipped(e);
    EncodedWeighs(e);
    EstimateRoundTrip(e);
  }

  lemma FieldsInPlace(v: bv16)
    ensures SyncBit(SyncOf(v)) == SyncField(v)
    ensures ScaleBits(ScaleOf(v)) == ScaleField(v)
    ensures MultiplierBits(MultiplierOf(v)) == MultiplierField(v)
  {
  }

  lemma AllButZ(v: bv16)
    ensures Join(SyncField(v), ScaleField(v), MultiplierField(v)) == v <==> !ZOf(v)
  {
  }

  /** A field is written back as it was read exactly if it says the timestamps are in NTP format. */
  lemma EstimateRewrites(v: bv16)
    ensures EncodedEstimate(DecodeEstimate(v)) == v <==> !ZOf(v)
  {
    hide SyncBit, ScaleBits, MultiplierBits, SyncOf, ZOf, ScaleOf, MultiplierOf, Join;
    hide SyncField, ScaleField, MultiplierField;
    FieldsInPlace(v);
    AllButZ(v);
  }
}
