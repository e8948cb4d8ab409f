/** The datagram bookkeeping of Components/VirtualSocket.py: an acknowledgement table keyed by
    message id, the set of ids already received, the last received message and its sender, and a
    send socket that is created for one destination and closed after one datagram. Datagrams put
    on the network are recorded, in order, as output events. */
module Datagrams {
  import opened Outcomes
  import opened Text

  /** A (host, port) address. */
  datatype Endpoint = Endpoint(host: string, port: int)

  /** One datagram handed to sendto, with the address it was sent to. */
  datatype Datagram = Datagram(payload: string, to: Endpoint)

  /** The send socket with the address stored next to it: none yet, or one for a destination,
      open or closed. create_send_message_socket sets both at once. */
  datatype Channel = NoChannel | Channel(dest: Endpoint, open: bool)

  /** A delayed call of _send(message, id, retries) scheduled by send_message. */
  datatype Timer = Timer(message: string, id: string, retries: int)

  /** The constructor arguments the modelled code reads. */
  datatype Settings = Settings(sendPort: int, maxRetries: int)

  /** Everything the modelled code reads or writes: the acknowledgement table, the received ids,
      the last received content and its reply address (None before the first message), the send
      socket, the datagrams sent so far and the timers scheduled so far. */
  datatype Station = Station(
    acks: map<string, bool>,
    ids: set<string>,
    content: string,
    addr: Option<Endpoint>,
    channel: Channel,
    wire: seq<Datagram>,
    timers: seq<Timer>)

  const AckPrefix: string := "ACK:"

  /** The state of a freshly constructed socket. */
  function Initial(): Station
  {
    Station(map[], {}, "", None, NoChannel, [], [])
  }

  /** message.startswith("ACK:") */
  predicate IsAck(message: string)
  {
    At(message, 0, AckPrefix)
  }

  /** The datagram _send_ack sends for an id. */
  function AckText(id: string): string
  {
    AckPrefix + id
  }

  /** The datagram _send sends: f"{msg_id}:{message}". */
  function DataText(id: string, message: string): string
  {
    id + [':'] + message
  }

  /** An acknowledgement datagram splits into "ACK" and at least one more piece. */
  lemma AckSplits(message: string)
    requires IsAck(message)
    ensures |Split(message, ':')| >= 2
  {
    assert message == "ACK" + [':'] + message[4..];
    SplitAtFirst("ACK", message[4..], ':');
  }

  /** message.split(":")[1] of an acknowledgement: the text after the first ':', up to the next. */
  function AckedId(message: string): string
    requires IsAck(message)
  {
    AckSplits(message);
    Split(message, ':')[1]
  }

  /** create_send_message_socket: a new open socket, for the given host at the send port. */
  function OpenChannel(cfg: Settings, st: Station, host: string): Station
  {
    st.(channel := Channel(Endpoint(host, cfg.sendPort), true))
  }

  /** self.__send_socket.sendto(payload, self.__send_address): AttributeError with no socket yet,
      OSError once it is closed. */
  function Transmit(st: Station, payload: string): Effect<Station>
  {
    match st.channel
    case NoChannel => Effect(st, Some(AttributeError))
    case Channel(dest, open) =>
      if open then Effect(st.(wire := st.wire + [Datagram(payload, dest)]), None)
      else Effect(st, Some(OSError))
  }

  /** _send_ack: a new socket for the host, "ACK:" + id sent to the given address, socket closed. */
  function SendAck(cfg: Settings, st: Station, to: Endpoint, id: string): Station
  {
    st.(channel := Channel(Endpoint(to.host, cfg.sendPort), false),
        wire := st.wire + [Datagram(AckText(id), to)])
  }

  /** One pass of the _listen loop for a datagram from senderHost. An acknowledgement marks its id;
      a data datagram is split at its first ':', and a new id is recorded, its content and reply
      address stored and an acknowledgement sent. Without ':' the unpacking raises ValueError. */
  function Listen(cfg: Settings, st: Station, message: string, senderHost: string): Effect<Station>
  {
    if IsAck(message) then
      Effect(st.(acks := st.acks[AckedId(message) := true]), None)
    else
      match SplitOnce(message, ':')
      case None => Effect(st, Some(ValueError))
      case Some((id, content)) =>
        if id in st.ids then Effect(st, None)
        else
          var reply := Endpoint(senderHost, cfg.sendPort);
          var recorded := st.(ids := st.ids + {id}, content := content, addr := Some(reply));
          Effect(SendAck(cfg, recorded, reply, id), None)
  }

  /** send_message with the random id n already drawn: the id is registered as not acknowledged
      and the first _send is scheduled. */
  function Register(st: Station, message: string, n: int): Station
    requires 1000 <= n <= 9999
  {
    var id := IntToString(n);
    st.(acks := st.acks[id := false], timers := st.timers + [Timer(message, id, 0)])
  }

  /** _send: an acknowledgement text is first sent once more, outside the try block; past the
      retry limit nothing else happens; otherwise the datagram is sent and the socket closed,
      and an exception there is caught (and the close skipped). */
  function SendAttempt(cfg: Settings, st: Station, message: string, id: string, retries: int): Effect<Station>
  {
    var first := if IsAck(message) then Transmit(st, DataText(id, message)) else Effect(st, None);
    if first.raised.Some? || retries > cfg.maxRetries then first
    else
      var sent := Transmit(first.state, DataText(id, message));
      if sent.raised.Some? then Effect(first.state, None)
      else Effect(sent.state.(channel := sent.state.channel.(open := false)), None)
  }

  /** _check_ack: KeyError for an id never registered; a resend with one more retry while the id
      is not acknowledged; nothing once it is. */
  function AckCheck(cfg: Settings, st: Station, message: string, id: string, retries: int): Effect<Station>
  {
    if id !in st.acks then Effect(st, Some(KeyError))
    else if !st.acks[id] then SendAttempt(cfg, st, message, id, retries + 1)
    else Effect(st, None)
  }

  // ---------------------------------------------------------------------------------------
  // The listen loop

  /** _send_ack emits "ACK:" + id, and the acknowledgement branch of _listen recovers the id
      when it has no ':', marks it acknowledged and changes nothing else. */
  lemma AckRoundTrip(cfg: Settings, st: Station, id: string, senderHost: string)
    requires ':' !in id
    ensures IsAck(AckText(id))
    ensures Listen(cfg, st, AckText(id), senderHost) == Effect(st.(acks := st.acks[id := true]), None)
  {
    var message := AckText(id);
    assert message == "ACK" + [':'] + id;
    assert message[..4] == AckPrefix;
    SplitAtFirst("ACK", id, ':');
    SplitWithoutSeparator(id, ':');
  }

  /** A data datagram is cut at its first ':' only, so the content keeps any ':' it holds: a new
      id is recorded with its content and reply address and acknowledged once to (sender host,
      send port); a known id leaves everything as it was. */
  lemma DataDatagram(cfg: Settings, st: Station, id: string, content: string, senderHost: string)
    requires ':' !in id && !IsAck(DataText(id, content))
    ensures var e := Listen(cfg, st, DataText(id, content), senderHost);
      var reply := Endpoint(senderHost, cfg.sendPort);
      && e.raised == None
      && (id in st.ids ==> e.state == st)
      && (id !in st.ids ==>
            && e.state.ids == st.ids + {id}
            && e.state.content == content
            && e.state.addr == Some(reply)
            && e.state.wire == st.wire + [Datagram(AckText(id), reply)]
            && e.state.acks == st.acks && e.state.timers == st.timers)
  {
    SplitOnceRoundTrip(id, content, ':');
  }

  lemma AckHasColon(message: string)
    ensures IsAck(message) ==> ':' in message
  {
    if IsAck(message) {
      assert message[3] == AckPrefix[3];
    }
  }

  /** A datagram that is not an acknowledgement and has no ':' makes the unpacking raise
      ValueError before anything changes. */
  lemma MissingColonIsError(cfg: Settings, st: Station, message: string, senderHost: string)
    requires ':' !in message
    ensures Listen(cfg, st, message, senderHost) == Effect(st, Some(ValueError))
  {
    AckHasColon(message);
    SplitOnceFails(message, ':');
  }

  /** Redelivery is harmless: handling the same datagram again changes nothing more. */
  lemma ListenIdempotent(cfg: Settings, st: Station, message: string, senderHost: string)
    requires Listen(cfg, st, message, senderHost).raised.None?
    ensures var once := Listen(cfg, st, message, senderHost).state;
      Listen(cfg, once, message, senderHost) == Effect(once, None)
  {
    var once := Listen(cfg, st, message, senderHost).state;
    if IsAck(message) {
      var id := AckedId(message);
      assert once.acks[id := true] == once.acks;
    } else {
      var id := SplitOnce(message, ':').value.0;
      assert id in once.ids;
    }
  }

  /** The received ids only grow, and by at most the one id the datagram carries. */
  lemma ListenGrowsIds(cfg: Settings, st: Station, message: string, senderHost: string)
    ensures var after := Listen(cfg, st, message, senderHost).state;
      && st.ids <= after.ids
      && |after.ids - st.ids| <= 1
      && (after.ids != st.ids ==> SplitOnce(message, ':').Some? && after.ids == st.ids + {SplitOnce(message, ':').value.0})
  {
    var after := Listen(cfg, st, message, senderHost).state;
    if !IsAck(message) && SplitOnce(message, ':').Some? {
      var id := SplitOnce(message, ':').value.0;
      if id !in st.ids {
        assert after.ids - st.ids == {id};
      }
    }
  }

  // ---------------------------------------------------------------------------------------
  // Sending

  /** The id send_message draws is four decimal digits, so it holds no ':'. */
  lemma RegisteredIdShape(n: int)
    requires 1000 <= n <= 9999
    ensures var id := IntToString(n); |id| == 4 && AllDigits(id) && ':' !in id
  {
    var id := IntToString(n);
    assert id == NatToString(n / 10) + [DigitChar(n % 10)];
    assert NatToString(n / 10) == NatToString(n / 100) + [DigitChar(n / 10 % 10)];
    assert NatToString(n / 100) == NatToString(n / 1000) + [DigitChar(n / 100 % 10)];
    assert NatToString(n / 1000) == [DigitChar(n / 1000)];
  }

  /** send_message registers its id as not yet acknowledged, keeps every other entry, and
      schedules exactly one first attempt. */
  lemma RegisterEffect(st: Station, message: string, n: int)
    requires 1000 <= n <= 9999
    ensures var after, id := Register(st, message, n), IntToString(n);
      && id in after.acks && !after.acks[id]
      && (forall k :: k in st.acks && k != id ==> k in after.acks && after.acks[k] == st.acks[k])
      && after.acks.Keys == st.acks.Keys + {id}
      && after.timers == st.timers + [Timer(message, id, 0)]
      && after.ids == st.ids && after.wire == st.wire
  {
  }

  /** Past the retry limit _send sends nothing on its normal path: state unchanged for a message
      that is not an acknowledgement text. */
  lemma SendGuard(cfg: Settings, st: Station, message: string, id: string, retries: int)
    requires retries > cfg.maxRetries && !IsAck(message)
    ensures SendAttempt(cfg, st, message, id, retries) == Effect(st, None)
  {
  }

  /** Within the retry limit, a send on an open socket puts exactly one datagram "id:message" on
      the wire to the stored address and closes the socket; on a missing or closed socket the
      exception is caught and nothing changes. */
  lemma SendWithinLimit(cfg: Settings, st: Station, message: string, id: string, retries: int)
    requires retries <= cfg.maxRetries && !IsAck(message)
    ensures var e := SendAttempt(cfg, st, message, id, retries);
      && e.raised == None
      && (st.channel.Channel? && st.channel.open ==>
            e.state == st.(wire := st.wire + [Datagram(DataText(id, message), st.channel.dest)],
                           channel := st.channel.(open := false)))
      && (!(st.channel.Channel? && st.channel.open) ==> e.state == st)
  {
  }

  /** The first successful send closes the socket, so the next attempt through _send on the
      state right after that send (a retry from _check_ack included) sends nothing. */
  lemma RetryAfterSendIsSilent(cfg: Settings, st: Station, message: string, id: string, retries: int, again: int)
    requires st.channel.Channel? && st.channel.open
    requires retries <= cfg.maxRetries && !IsAck(message)
    ensures var after := SendAttempt(cfg, st, message, id, retries).state;
      SendAttempt(cfg, after, message, id, again) == Effect(after, None)
  {
    SendWithinLimit(cfg, st, message, id, retries);
  }

  /** _check_ack raises KeyError exactly for an unregistered id, resends with retries + 1 exactly
      while the id is unacknowledged, and otherwise changes nothing. */
  lemma CheckAckResendsOnlyUnacked(cfg: Settings, st: Station, message: string, id: string, retries: int)
    ensures AckCheck(cfg, st, message, id, retries).raised == Some(KeyError) <==> id !in st.acks
    ensures id in st.acks && !st.acks[id] ==>
      AckCheck(cfg, st, message, id, retries) == SendAttempt(cfg, st, message, id, retries + 1)
    ensures id in st.acks && st.acks[id] ==> AckCheck(cfg, st, message, id, retries) == Effect(st, None)
  {
    if id in st.acks && !st.acks[id] {
      var first := if IsAck(message) then Transmit(st, DataText(id, message)) else Effect(st, None);
      assert first.raised != Some(KeyError);
    }
  }

  /** One message from end to end: the sender registers id n and sends within the retry limit on
      an open socket; the receiver, which has not seen the id, records the content (':' and all)
      and acknowledges to the sender's host; the acknowledgement, handled by the sender, marks
      the id as acknowledged. */
  lemma DeliveryIsAcknowledged(cfg: Settings, sender: Station, receiver: Station, rcfg: Settings, message: string, n: int, senderHost: string)
    requires 1000 <= n <= 9999
    requires sender.channel.Channel? && sender.channel.open
    requires 0 <= cfg.maxRetries && !IsAck(message)
    requires IntToString(n) !in receiver.ids
    ensures var id := IntToString(n);
      var payload := DataText(id, message);
      var sent := SendAttempt(cfg, Register(sender, message, n), message, id, 0).state;
      var heard := Listen(rcfg, receiver, payload, senderHost).state;
      var reply := Endpoint(senderHost, rcfg.sendPort);
      var acked := Listen(cfg, sent, AckText(id), sender.channel.dest.host).state;
      && sent.wire == sender.wire + [Datagram(payload, sender.channel.dest)]
      && heard.content == message && id in heard.ids
      && heard.wire == receiver.wire + [Datagram(AckText(id), reply)]
      && id in acked.acks && acked.acks[id]
  {
    var id := IntToString(n);
    RegisteredIdShape(n);
    var registered := Register(sender, message, n);
    SendWithinLimit(cfg, registered, message, id, 0);
    var sent := SendAttempt(cfg, registered, message, id, 0).state;
    var payload := DataText(id, message);
    assert !IsAck(payload) by {
      assert payload[0] == id[0];
      assert IsDigit(id[0]);
    }
    DataDatagram(rcfg, receiver, id, message, senderHost);
    AckRoundTrip(cfg, sent, id, sender.channel.dest.host);
  }

  // ---------------------------------------------------------------------------------------

  /** The VirtualSocket object, with the fields the modelled methods read and write. */
  class VirtualSocket {
    const sendPort: int
    const maxRetries: int
    var acksReceived: map<string, bool>
    var receivedIds: set<string>
    var receivedContent: string
    var receivedAddr: Option<Endpoint>
    var channel: Channel
    var wire: seq<Datagram>
    var timers: seq<Timer>

    /** The constructor, without the listening socket and its thread. */
    constructor (sendPort: int, maxRetries: int)
      ensures this.sendPort == sendPort && this.maxRetries == maxRetries
      ensures State() == Initial()
    {
      this.sendPort := sendPort;
      this.maxRetries := maxRetries;
      acksReceived := map[];
      receivedIds := {};
      receivedContent := "";
      receivedAddr := None;
      channel := NoChannel;
      wire := [];
      timers := [];
    }

    function Config(): Settings
    {
      Settings(sendPort, maxRetries)
    }

    function State(): Station
      reads this
    {
      Station(acksReceived, receivedIds, receivedContent, receivedAddr, channel, wire, timers)
    }

    method CreateSendMessageSocket(host: string)
      modifies this
      ensures State() == OpenChannel(Config(), old(State()), host)
    {
      channel := Channel(Endpoint(host, sendPort), true);
    }

    /** sendto on the stored socket and address. */
    method SendTo(payload: string) returns (raised: Option<Fault>)
      modifies this
      ensures State() == Transmit(old(State()), payload).state
      ensures raised == Transmit(old(State()), payload).raised
    {
      if channel.NoChannel? {
        return Some(AttributeError);
      }
      if !channel.open {
        return Some(OSError);
      }
      wire := wire + [Datagram(payload, channel.dest)];
      raised := None;
    }

    method SendAckTo(to: Endpoint, id: string)
      modifies this
      ensures State() == SendAck(Config(), old(State()), to, id)
    {
      var ackMessage := AckText(id);
      CreateSendMessageSocket(to.host);
      wire := wire + [Datagram(ackMessage, to)];
      channel := channel.(open := false);
    }

    /** The body of the _listen loop for one datagram from senderHost. */
    method HandleDatagram(message: string, senderHost: string) returns (raised: Option<Fault>)
      modifies this
      ensures State() == Listen(Config(), old(State()), message, senderHost).state
      ensures raised == Listen(Config(), old(State()), message, senderHost).raised
    {
      if IsAck(message) {
        var messageId := AckedId(message);
        acksReceived := acksReceived[messageId := true];
        return None;
      }
      var parts := SplitOnce(message, ':');
      if parts.None? {
        return Some(ValueError);
      }
      var (messageId, messageContent) := parts.value;
      if messageId !in receivedIds {
        receivedIds := receivedIds + {messageId};
        receivedContent := messageContent;
        receivedAddr := Some(Endpoint(senderHost, sendPort));
        SendAckTo(Endpoint(senderHost, sendPort), messageId);
      }
      raised := None;
    }

    /** send_message, with the value random.randint(1000, 9999) returned given as n. */
    method SendMessage(message: string, n: int)
      requires 1000 <= n <= 9999
      modifies this
      ensures State() == Register(old(State()), message, n)
    {
      var messageId := IntToString(n);
      acksReceived := acksReceived[messageId := false];
      timers := timers + [Timer(message, messageId, 0)];
    }

    method Send(message: string, msgId: string, retries: int) returns (raised: Option<Fault>)
      modifies this
      ensures State() == SendAttempt(Config(), old(State()), message, msgId, retries).state
      ensures raised == SendAttempt(Config(), old(State()), message, msgId, retries).raised
    {
      if IsAck(message) {
        raised := SendTo(DataText(msgId, message));
        if raised.Some? {
          return;
        }
      }
      if retries > maxRetries {
        return None;
      }
      var failed := SendTo(DataText(msgId, message));
      if failed.None? {
        channel := channel.(open := false);
      }
      raised := None;
    }

    method CheckAck(message: string, msgId: string, retries: int) returns (raised: Option<Fault>)
      modifies this
      ensures State() == AckCheck(Config(), old(State()), message, msgId, retries).state
      ensures raised == AckCheck(Config(), old(State()), message, msgId, retries).raised
    {
      if msgId !in acksReceived {
        return Some(KeyError);
      }
      if !acksReceived[msgId] {
        raised := Send(message, msgId, retries + 1);
      } else {
        raised := None;
      }
    }
  }
}
