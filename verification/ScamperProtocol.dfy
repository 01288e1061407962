/**
 The scamper client: commands are answered in the order they were sent, and the data of an accepted
 command comes later, under the id of its OK (libs/scamper-client/client.go).

 A channel is named by the number of the command it was made for. It has room for one value, so a
 second value for it would block the reader.
 */
module ScamperProtocol {
  import opened Options
  import opened ScamperFraming

  /** `data` is None for the empty value that answers an OK without an id. */
  datatype Delivery = Delivery(channel: nat, data: Option<string>)

  datatype Client = Client(sent: nat, pending: seq<nat>, waiters: map<string, nat>, deliveries: seq<Delivery>)

  const NEW_CLIENT := Client(0, [], map[], [])

  function Send(c: Client): Client {
    c.(sent := c.sent + 1, pending := c.pending + [c.sent])
  }

  function Deliver(c: Client, channel: nat, data: Option<string>): Client {
    c.(deliveries := c.deliveries + [Delivery(channel, data)])
  }

  function Handle(c: Client, f: Frame): Client {
    match f
    case More(_) => c
    case Err(_) => if c.pending == [] then c else c.(pending := c.pending[1..])
    case Ok(id) =>
      if c.pending == [] then c
      else
        var popped := c.(pending := c.pending[1..]);
        if id != "" then popped.(waiters := c.waiters[id := c.pending[0]]) else Deliver(popped, c.pending[0], None)
    case Data(id, payload) =>
      if id in c.waiters then Deliver(c.(waiters := c.waiters - {id}), c.waiters[id], Some(payload)) else c
  }

  function HandleAll(c: Client, frames: seq<Frame>): Client
    decreases |frames|
  {
    if frames == [] then c else HandleAll(Handle(c, frames[0]), frames[1..])
  }

  // ---------------------------------------------------------- any stream at all

  datatype Event = Sent | Received(frame: Frame)

  function ClientAfter(events: seq<Event>): Client {
    if events == [] then NEW_CLIENT
    else
      var before := ClientAfter(events[..|events| - 1]);
      match events[|events| - 1]
      case Sent => Send(before)
      case Received(f) => Handle(before, f)
  }

  ghost predicate OneEach(deliveries: seq<Delivery>) {
    forall i, j :: 0 <= i < j < |deliveries| ==> deliveries[i].channel != deliveries[j].channel
  }

  /** The queue holds the latest commands; every other channel is waiting under one id, has had its one
      value, or was dropped. */
  ghost predicate Owned(c: Client) {
    && |c.pending| <= c.sent
    && (forall i :: 0 <= i < |c.pending| ==> c.pending[i] == c.sent - |c.pending| + i)
    && (forall id :: id in c.waiters ==> c.waiters[id] < c.sent - |c.pending|)
    && (forall id, id' :: id in c.waiters && id' in c.waiters && id != id' ==> c.waiters[id] != c.waiters[id'])
    && (forall i :: 0 <= i < |c.deliveries| ==> c.deliveries[i].channel < c.sent - |c.pending|)
    && (forall id, i :: id in c.waiters && 0 <= i < |c.deliveries| ==> c.deliveries[i].channel != c.waiters[id])
    && OneEach(c.deliveries)
  }

  lemma PopKeepsOwned(c: Client)
    requires Owned(c) && c.pending != []
    ensures Owned(c.(pending := c.pending[1..]))
  {
  }

  /** A channel that is nowhere, which a popped one is, can wait under any id or get its value. */
  ghost predicate Loose(c: Client, channel: nat) {
    && channel < c.sent - |c.pending|
    && (forall id :: id in c.waiters ==> c.waiters[id] != channel)
    && (forall i :: 0 <= i < |c.deliveries| ==> c.deliveries[i].channel != channel)
  }

  lemma WaitKeepsOwned(c: Client, id: string, channel: nat)
    requires Owned(c) && Loose(c, channel)
    ensures Owned(c.(waiters := c.waiters[id := channel]))
  {
  }

  lemma DeliverKeepsOwned(c: Client, channel: nat, data: Option<string>)
    requires Owned(c) && Loose(c, channel)
    ensures Owned(Deliver(c, channel, data))
  {
  }

  lemma RemoveKeepsOwned(c: Client, id: string)
    requires Owned(c) && id in c.waiters
    ensures Owned(c.(waiters := c.waiters - {id})) && Loose(c.(waiters := c.waiters - {id}), c.waiters[id])
  {
  }

  lemma PoppedIsLoose(c: Client)
    requires Owned(c) && c.pending != []
    ensures Loose(c.(pending := c.pending[1..]), c.pending[0])
  {
  }

  lemma HandleKeepsOwned(c: Client, f: Frame)
    requires Owned(c)
    ensures Owned(Handle(c, f))
  {
    hide Owned, Loose;
    if (f.Err? || f.Ok?) && c.pending != [] {
      PopKeepsOwned(c);
      PoppedIsLoose(c);
      var popped := c.(pending := c.pending[1..]);
      if f.Ok? {
        WaitKeepsOwned(popped, f.id, c.pending[0]);
        DeliverKeepsOwned(popped, c.pending[0], None);
      }
    } else if f.Data? && f.id in c.waiters {
      RemoveKeepsOwned(c, f.id);
      DeliverKeepsOwned(c.(waiters := c.waiters - {f.id}), c.waiters[f.id], Some(f.payload));
    }
  }

  /** Whatever comes over the wire and whenever commands are sent, no channel gets a second value, so
      the reader never blocks on one. */
  lemma {:induction false} EachChannelHearsOnce(events: seq<Event>)
    ensures Owned(ClientAfter(events))
    ensures OneEach(ClientAfter(events).deliveries)
  {
    hide Handle;
    if events != [] {
      var n := |events| - 1;
      EachChannelHearsOnce(events[..n]);
      if events[n].Received? {
        HandleKeepsOwned(ClientAfter(events[..n]), events[n].frame);
      }
    }
  }

  /** If an OK reuses the id of an unfinished command, the data under that id goes to the later command
      and the earlier one's channel is dropped. */
  lemma ReusedIdMisdelivers(c: Client, id: string, payload: string)
    requires Owned(c) && id in c.waiters && id != "" && c.pending != []
    ensures var c' := Handle(Handle(c, Ok(id)), Data(id, payload));
      && c'.deliveries == c.deliveries + [Delivery(c.pending[0], Some(payload))]
      && Loose(c', c.waiters[id])
  {
  }

  lemma LooseHandle(c: Client, f: Frame, channel: nat)
    requires Owned(c) && Loose(c, channel)
    ensures Loose(Handle(c, f), channel)
  {
  }

  /** A dropped channel never hears anything again. */
  lemma {:induction false} DroppedForGood(events: seq<Event>, upTo: nat, channel: nat)
    requires upTo <= |events| && Loose(ClientAfter(events[..upTo]), channel)
    ensures Loose(ClientAfter(events), channel)
  {
    hide Handle;
    var n := |events| - 1;
    if upTo == |events| {
      assert events[..upTo] == events;
    } else {
      assert events[..n][..upTo] == events[..upTo];
      DroppedForGood(events[..n], upTo, channel);
      EachChannelHearsOnce(events[..n]);
      if events[n].Received? {
        LooseHandle(ClientAfter(events[..n]), events[n].frame, channel);
      }
    }
  }

  // -------------------------------------------------------- an orderly daemon

  datatype Fate = Refused | Acknowledged | Working(id: string) | Answered

  /** One fate for each command it has replied to; `working` finds the accepted ones by id. */
  datatype Daemon = Daemon(fates: seq<Fate>, working: map<string, nat>)

  datatype Action = Refuse(text: string) | Acknowledge | Accept(id: string) | Chat(text: string) | Answer(id: string)

  datatype World = World(client: Client, daemon: Daemon, wire: seq<Frame>)

  datatype Step = Sends | Acts(action: Action) | Reads

  /** Replies in the order of the commands, with an id no unfinished command has. */
  predicate Allowed(d: Daemon, sent: nat, action: Action) {
    match action
    case Refuse(text) => |d.fates| < sent && '\n' !in text
    case Acknowledge => |d.fates| < sent
    case Accept(id) => |d.fates| < sent && id !in d.working && id != "" && IsId(id)
    case Chat(text) => '\n' !in text
    case Answer(id) => id in d.working
  }

  /** `answer` is the result of each command. */
  function Says(answer: nat -> string, d: Daemon, action: Action): Frame {
    match action
    case Refuse(text) => Err(text)
    case Acknowledge => Ok("")
    case Accept(id) => Ok(id)
    case Chat(text) => More(text)
    case Answer(id) => Data(id, if id in d.working then answer(d.working[id]) else "")
  }

  function Acted(d: Daemon, action: Action): Daemon {
    match action
    case Refuse(_) => d.(fates := d.fates + [Refused])
    case Acknowledge => d.(fates := d.fates + [Acknowledged])
    case Accept(id) => Daemon(d.fates + [Working(id)], d.working[id := |d.fates|])
    case Chat(_) => d
    case Answer(id) =>
      if id in d.working && d.working[id] < |d.fates| then
        Daemon(d.fates[d.working[id] := Answered], d.working - {id})
      else d
  }

  /** A step that is not possible does nothing. */
  function Next(answer: nat -> string, w: World, step: Step): World {
    match step
    case Sends => w.(client := Send(w.client))
    case Acts(action) =>
      if Allowed(w.daemon, w.client.sent, action) then
        w.(daemon := Acted(w.daemon, action), wire := w.wire + [Says(answer, w.daemon, action)])
      else w
    case Reads => if w.wire == [] then w else w.(client := Handle(w.client, w.wire[0]), wire := w.wire[1..])
  }

  function After(answer: nat -> string, steps: seq<Step>): World {
    if steps == [] then World(NEW_CLIENT, Daemon([], map[]), [])
    else Next(answer, After(answer, steps[..|steps| - 1]), steps[|steps| - 1])
  }

  function Replies(frames: seq<Frame>): (n: nat)
  {
    if frames == [] then 0
    else Replies(frames[1..]) + if frames[0].Err? || frames[0].Ok? then 1 else 0
  }

  // What the client will have made of the wire when it has read all of it.

  ghost predicate FatesMatch(d: Daemon) {
    && (forall id :: id in d.working ==> d.working[id] < |d.fates| && d.fates[d.working[id]] == Working(id))
    && (forall c :: 0 <= c < |d.fates| && d.fates[c].Working? ==>
          d.fates[c].id in d.working && d.working[d.fates[c].id] == c)
  }

  predicate Justified(answer: nat -> string, fates: seq<Fate>, delivery: Delivery) {
    && delivery.channel < |fates|
    && match delivery.data
       case None => fates[delivery.channel].Acknowledged?
       case Some(data) => fates[delivery.channel].Answered? && data == answer(delivery.channel)
  }

  ghost predicate Heard(deliveries: seq<Delivery>, channel: nat) {
    exists i :: 0 <= i < |deliveries| && deliveries[i].channel == channel
  }

  ghost predicate InStep(answer: nat -> string, c: Client, d: Daemon) {
    && Owned(c)
    && c.sent == |d.fates| + |c.pending|
    && c.waiters == d.working
    && (forall i :: 0 <= i < |c.deliveries| ==> Justified(answer, d.fates, c.deliveries[i]))
    && (forall ch :: 0 <= ch < |d.fates| && (d.fates[ch].Acknowledged? || d.fates[ch].Answered?) ==>
          Heard(c.deliveries, ch))
  }

  lemma {:induction false} HandleAllAppends(c: Client, frames: seq<Frame>, f: Frame)
    ensures HandleAll(c, frames + [f]) == Handle(HandleAll(c, frames), f)
    decreases |frames|
  {
    hide Handle;
    if frames == [] {
      assert ([] + [f])[1..] == [];
    } else {
      assert (frames + [f])[1..] == frames[1..] + [f];
      HandleAllAppends(Handle(c, frames[0]), frames[1..], f);
    }
  }

  lemma SendCommutes(c: Client, f: Frame)
    requires (f.Err? || f.Ok?) ==> c.pending != []
    ensures Handle(Send(c), f) == Send(Handle(c, f))
  {
    if c.pending != [] {
      assert (c.pending + [c.sent])[1..] == c.pending[1..] + [c.sent];
    }
  }

  lemma {:induction false} SendCommutesWithAll(c: Client, frames: seq<Frame>)
    requires Replies(frames) <= |c.pending|
    ensures HandleAll(Send(c), frames) == Send(HandleAll(c, frames))
    ensures |HandleAll(c, frames).pending| == |c.pending| - Replies(frames)
    decreases |frames|
  {
    hide Send;
    if frames != [] {
      SendCommutes(c, frames[0]);
      SendCommutesWithAll(Handle(c, frames[0]), frames[1..]);
    }
  }

  lemma {:induction false} RepliesAppend(frames: seq<Frame>, f: Frame)
    ensures Replies(frames + [f]) == Replies(frames) + if f.Err? || f.Ok? then 1 else 0
    decreases |frames|
  {
    if frames == [] {
      assert ([f])[1..] == [];
    } else {
      assert (frames + [f])[1..] == frames[1..] + [f];
      RepliesAppend(frames[1..], f);
    }
  }

  lemma HeardStays(deliveries: seq<Delivery>, more: seq<Delivery>)
    requires |deliveries| <= |more| && more[..|deliveries|] == deliveries
    ensures forall ch :: Heard(deliveries, ch) ==> Heard(more, ch)
  {
    forall ch | Heard(deliveries, ch) ensures Heard(more, ch) {
      var i :| 0 <= i < |deliveries| && deliveries[i].channel == ch;
      assert more[i] == more[..|deliveries|][i];
    }
  }

  lemma ReplyInStep(answer: nat -> string, c: Client, d: Daemon, action: Action)
    requires InStep(answer, c, d) && FatesMatch(d) && Allowed(d, c.sent, action)
    requires action.Refuse? || action.Acknowledge? || action.Accept? || action.Chat?
    ensures InStep(answer, Handle(c, Says(answer, d, action)), Acted(d, action))
  {
    var c' := Handle(c, Says(answer, d, action));
    HandleKeepsOwned(c, Says(answer, d, action));
    HeardStays(c.deliveries, c'.deliveries);
    if action.Acknowledge? {
      assert c'.deliveries[|c.deliveries|].channel == |d.fates|;
    }
  }

  lemma AnswerInStep(answer: nat -> string, c: Client, d: Daemon, id: string)
    requires InStep(answer, c, d) && FatesMatch(d) && id in d.working
    ensures InStep(answer, Handle(c, Says(answer, d, Answer(id))), Acted(d, Answer(id)))
  {
    hide Owned;
    var c' := Handle(c, Says(answer, d, Answer(id)));
    HandleKeepsOwned(c, Says(answer, d, Answer(id)));
    HeardStays(c.deliveries, c'.deliveries);
    assert c'.deliveries[|c.deliveries|] == Delivery(d.working[id], Some(answer(d.working[id])));
    assert Heard(c'.deliveries, d.working[id]);
  }

  lemma ActionKeepsFates(d: Daemon, sent: nat, action: Action)
    requires FatesMatch(d) && Allowed(d, sent, action)
    ensures FatesMatch(Acted(d, action))
  {
  }

  // ------------------------------------------------------------ the whole run

  ghost predicate Consistent(answer: nat -> string, w: World) {
    && FatesMatch(w.daemon)
    && Replies(w.wire) <= |w.client.pending|
    && InStep(answer, HandleAll(w.client, w.wire), w.daemon)
  }

  lemma {:induction false} HandleAllKeepsSent(c: Client, frames: seq<Frame>)
    ensures HandleAll(c, frames).sent == c.sent
    decreases |frames|
  {
    if frames != [] {
      HandleAllKeepsSent(Handle(c, frames[0]), frames[1..]);
    }
  }

  lemma SendInStep(answer: nat -> string, c: Client, d: Daemon)
    requires InStep(answer, c, d)
    ensures InStep(answer, Send(c), d)
  {
  }

  lemma ReplyIsAwaited(answer: nat -> string, c: Client, d: Daemon, action: Action)
    requires InStep(answer, c, d) && Allowed(d, c.sent, action)
    ensures var f := Says(answer, d, action); f.Err? || f.Ok? ==> |c.pending| > 0
  {
  }

  lemma AnswerIsKnown(d: Daemon, sent: nat, action: Action)
    requires Allowed(d, sent, action) && action.Answer?
    ensures action.id in d.working
  {
  }

  lemma ActIsConsistent(answer: nat -> string, w: World, action: Action)
    requires Consistent(answer, w) && Allowed(w.daemon, w.client.sent, action)
    ensures Consistent(answer, Next(answer, w, Acts(action)))
  {
    hide InStep, FatesMatch, Handle, Allowed, Acted, HandleAll;
    var f := Says(answer, w.daemon, action);
    var c := HandleAll(w.client, w.wire);
    HandleAllKeepsSent(w.client, w.wire);
    HandleAllAppends(w.client, w.wire, f);
    ActionKeepsFates(w.daemon, c.sent, action);
    RepliesAppend(w.wire, f);
    SendCommutesWithAll(w.client, w.wire);
    ReplyIsAwaited(answer, c, w.daemon, action);
    if action.Answer? {
      AnswerIsKnown(w.daemon, c.sent, action);
      AnswerInStep(answer, c, w.daemon, action.id);
    } else {
      ReplyInStep(answer, c, w.daemon, action);
    }
  }

  lemma StepIsConsistent(answer: nat -> string, w: World, step: Step)
    requires Consistent(answer, w)
    ensures Consistent(answer, Next(answer, w, step))
  {
    match step {
      case Sends =>
        hide InStep, FatesMatch, HandleAll;
        SendCommutesWithAll(w.client, w.wire);
        SendInStep(answer, HandleAll(w.client, w.wire), w.daemon);
      case Acts(action) =>
        hide InStep, FatesMatch, HandleAll, Acted, Says;
        if Allowed(w.daemon, w.client.sent, action) {
          ActIsConsistent(answer, w, action);
        }
      case Reads =>
        hide InStep, FatesMatch;
    }
  }

  lemma {:induction false} EveryRunIsConsistent(answer: nat -> string, steps: seq<Step>)
    ensures Consistent(answer, After(answer, steps))
  {
    hide Next;
    if steps != [] {
      hide Consistent;
      EveryRunIsConsistent(answer, steps[..|steps| - 1]);
      StepIsConsistent(answer, After(answer, steps[..|steps| - 1]), steps[|steps| - 1]);
    }
  }

  lemma {:induction false} DeliveriesStay(c: Client, frames: seq<Frame>)
    ensures c.deliveries <= HandleAll(c, frames).deliveries
    decreases |frames|
  {
    if frames != [] {
      DeliveriesStay(Handle(c, frames[0]), frames[1..]);
      assert c.deliveries <= Handle(c, frames[0]).deliveries;
    }
  }

  lemma JustifiedFate(answer: nat -> string, fates: seq<Fate>, delivery: Delivery)
    requires Justified(answer, fates, delivery)
    ensures fates[delivery.channel].Acknowledged? || fates[delivery.channel].Answered?
  {
  }

  /** With a daemon that replies in order and reuses no id of an unfinished command, and commands sent
      at any time: a value on a channel is the result of that channel's own command, an empty one
      means its command was acknowledged without an id, and a refused command's channel stays empty.
      When the wire has been read, everything the daemon has answered is on its channel. */
  lemma NeverMisdelivers(answer: nat -> string, steps: seq<Step>)
    ensures var w := After(answer, steps);
      && (forall i :: 0 <= i < |w.client.deliveries| ==> Justified(answer, w.daemon.fates, w.client.deliveries[i]))
      && (w.wire == [] ==> forall ch :: 0 <= ch < |w.daemon.fates| ==>
            (Heard(w.client.deliveries, ch) <==> w.daemon.fates[ch].Acknowledged? || w.daemon.fates[ch].Answered?))
  {
    hide After, FatesMatch, Owned, Justified, Handle;
    EveryRunIsConsistent(answer, steps);
    var w := After(answer, steps);
    DeliveriesStay(w.client, w.wire);
    var last := HandleAll(w.client, w.wire).deliveries;
    forall i | 0 <= i < |w.client.deliveries| ensures Justified(answer, w.daemon.fates, w.client.deliveries[i]) {
      assert w.client.deliveries[i] == last[i];
    }
    forall ch | 0 <= ch < |w.daemon.fates| && Heard(w.client.deliveries, ch)
      ensures w.daemon.fates[ch].Acknowledged? || w.daemon.fates[ch].Answered?
    {
      var i :| 0 <= i < |w.client.deliveries| && w.client.deliveries[i].channel == ch;
      JustifiedFate(answer, w.daemon.fates, w.client.deliveries[i]);
    }
  }

  // ------------------------------------------------------------- and its bytes

  ghost predicate Fits(answer: nat -> string) {
    forall c :: |answer(c)| < 0x8000_0000_0000_0000
  }

  ghost predicate AllSayable(frames: seq<Frame>) {
    forall i :: 0 <= i < |frames| ==> Sayable(frames[i])
  }

  ghost predicate WordIds(d: Daemon) {
    forall id :: id in d.working ==> id != "" && IsId(id)
  }

  lemma IsIdEmpty()
    ensures IsId("")
  {
  }

  lemma {:induction false} WireIsSayable(answer: nat -> string, steps: seq<Step>)
    requires Fits(answer)
    ensures AllSayable(After(answer, steps).wire) && WordIds(After(answer, steps).daemon)
  {
    hide Handle, IsId;
    if steps != [] {
      WireIsSayable(answer, steps[..|steps| - 1]);
      assert IsId("") by { IsIdEmpty(); }
    }
  }

  /** The same holds of the bytes: what is on the wire, printed and parsed, is what was put there. */
  lemma WireReadsBack(answer: nat -> string, steps: seq<Step>)
    requires Fits(answer)
    ensures Parse(PrintAll(After(answer, steps).wire)) == After(answer, steps).wire
  {
    WireIsSayable(answer, steps);
    var wire := After(answer, steps).wire;
    FramingRoundTrip(wire, "");
    assert PrintAll(wire) + "" == PrintAll(wire);
    assert wire + Parse("") == wire;
  }

  // ------------------------------------------------------------------ the class

  lemma FrameThenRest(c: Client, s: string)
    ensures HandleAll(c, Parse(s)) ==
      var r := ReadFrame(s);
      if r.End? then c else HandleAll(if r.Got? then Handle(c, r.frame) else c, Parse(r.rest))
  {
    hide ReadFrame, Handle;
    var r := ReadFrame(s);
    if r.Got? {
      assert ([r.frame] + Parse(r.rest))[1..] == Parse(r.rest);
    }
  }

  class ScamperClient {
    var sent: nat
    var pendingQ: seq<nat>
    var waiters: map<string, nat>
    var deliveries: seq<Delivery>
    var input: string

    function View(): Client
      reads this
    {
      Client(sent, pendingQ, waiters, deliveries)
    }

    constructor (bytes: string)
      ensures View() == NEW_CLIENT && input == bytes
    {
      sent, pendingQ, waiters, deliveries, input := 0, [], map[], [], bytes;
    }

    method SendCommand(writeFails: bool) returns (channel: Option<nat>)
      modifies this
      ensures input == old(input)
      ensures View() == if writeFails then old(View()) else Send(old(View()))
      ensures channel == if writeFails then None else Some(old(sent))
    {
      if writeFails {
        return None;
      }
      channel := Some(sent);
      pendingQ := pendingQ + [sent];
      sent := sent + 1;
    }

    method ReadOne() returns (more: bool)
      modifies this
      ensures var r := ReadFrame(old(input));
        && more == !r.End?
        && (more ==> input == r.rest)
        && View() == if r.Got? then Handle(old(View()), r.frame) else old(View())
    {
      hide OkId, DataHeader;
      var end := LineEnd(input);
      if end == |input| {
        return false;
      }
      more := true;
      var line, rest := input[..end], input[end + 1..];
      input := rest;
      if "ERR" <= line {
        if pendingQ == [] {
          return;
        }
        pendingQ := pendingQ[1..];
        return;
      }
      if "MORE" <= line {
        return;
      }
      if "OK" <= line {
        var id := OkId(line);
        if pendingQ == [] {
          return;
        }
        var channel := pendingQ[0];
        pendingQ := pendingQ[1..];
        if id != "" {
          waiters := waiters[id := channel];
        } else {
          deliveries := deliveries + [Delivery(channel, None)];
        }
        return;
      }
      if "DATA" <= line {
        var header := DataHeader(line);
        if header.None? {
          return;
        }
        var length, id := header.value.length, header.value.id;
        if length < 0 || length > |rest| {
          return false;
        }
        input := rest[length..];
        if id !in waiters {
          return;
        }
        var channel := waiters[id];
        waiters := waiters - {id};
        deliveries := deliveries + [Delivery(channel, Some(rest[..length]))];
      }
    }

    /** Reads until the input ends: the effect is that of its frames, one after the other. */
    method StartRead()
      modifies this
      ensures View() == HandleAll(old(View()), Parse(old(input)))
    {
      hide Handle, ReadFrame;
      var more := true;
      while more
        invariant more ==> HandleAll(View(), Parse(input)) == HandleAll(old(View()), Parse(old(input)))
        invariant !more ==> View() == HandleAll(old(View()), Parse(old(input)))
        decreases more, |input|
      {
        ghost var before, view := input, View();
        more := ReadOne();
        FrameThenRest(view, before);
      }
    }
  }
}
