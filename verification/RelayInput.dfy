/** From the bytes a connection delivers to the relay's events: the greeting (wlnr/server.go) and the
    message loops (wlnr/game.go). */
module RelayInput {
  import opened GoText
  import opened RelayFraming
  import opened RelayModel
  import opened RelayInvariant
  import RelayTheorems

  // dealWithNewConnection: the version is checked before the strings are read.
  function Greeting(input: Text): (Event, Text) {
    if |input| < 2 || input[0] != HELLO then (Garbled, [])
    else if input[1] != PROTOCOL_VERSION then (Hello(input[1], [], []), input[2..])
    else
      match TakeString(input[2..])
      case None => (Garbled, [])
      case Some((name, rest)) =>
        match TakeString(rest)
        case None => (Garbled, [])
        case Some((password, left)) => (Hello(input[1], name, password), left)
  }

  // What a message of c amounts to, if anything.
  function EventOf(c: Conn, m: Message, measured: Measured): Option<Event> {
    match m
    case ToHost(packet) => Some(Upload(c, packet))
    case ToClients(ids, packet) => Some(Multicast(c, ids, packet))
    case Leave => Some(Lost(c, NORMAL))
    case EndOfInput => Some(Lost(c, NORMAL))
    case Violation => Some(Lost(c, PROTOCOL_VIOLATION))
    case AskRtts => Some(AskRtt(c, measured))
    case Pong(number) => Some(PongFrom(c, number))
    case Skipped(_) => None
  }

  function After(s: Relay, e: Option<Event>): Relay {
    if e.Some? then Step(s, e.value) else s
  }

  // The message loop of a connection ends with this message.
  predicate Last(m: Message) {
    m.Leave? || m.Violation? || m.EndOfInput?
  }

  function MessageOf(host: bool, input: Text): (Message, Text) {
    if host then HostMessage(input) else ClientMessage(input)
  }

  lemma MessagesTakeBytes(host: bool, input: Text)
    ensures var (m, rest) := MessageOf(host, input); Last(m) || |rest| < |input|
  {
    if input != [] { IdsAreTakenBack(input[1..]); }
  }

  // The events of everything a member of a game ever delivers.
  function StreamEvents(c: Conn, host: bool, input: Text, measured: Measured): seq<Event>
    decreases |input|
  {
    var (m, rest) := MessageOf(host, input);
    var e := EventOf(c, m, measured);
    MessagesTakeBytes(host, input);
    (if e.Some? then [e.value] else []) + if Last(m) then [] else StreamEvents(c, host, rest, measured)
  }

  // Packets that carry their length, and reasons of the relay's own.
  ghost predicate Wholesome(e: Event) {
    match e
    case Upload(_, packet) => Framed(packet)
    case Multicast(_, ids, packet) => Framed(packet) && 0 !in ids
    case Lost(_, reason) => reason == NORMAL || reason == PROTOCOL_VIOLATION
    case _ => e.AskRtt? || e.PongFrom?
  }

  lemma ClientMessagesAreWholesome(input: Text, c: Conn, measured: Measured)
    ensures
      var e := EventOf(c, ClientMessage(input).0, measured);
      e.Some? ==> Wholesome(e.value)
  {
    if input != [] { PacketIsTransparent(input[1..]); }
  }

  lemma HostMessagesAreWholesome(input: Text, c: Conn, measured: Measured)
    ensures
      var e := EventOf(c, HostMessage(input).0, measured);
      e.Some? ==> Wholesome(e.value)
  {
    ClientMessagesAreWholesome(input, c, measured);
    if input != [] && input[0] == TO_CLIENTS { DestinationsAreWholesome(input[1..]); }
  }

  lemma DestinationsAreWholesome(input: Text)
    ensures
      match TakeIds(input)
      case None => true
      case Some((ids, rest)) => 0 !in ids && (TakePacket(rest).Some? ==> Framed(TakePacket(rest).value.0))
  {
    IdsAreTakenBack(input);
    match TakeIds(input)
    case Some((ids, rest)) => PacketIsTransparent(rest);
    case None =>
  }

  // Whatever the bytes are, they lead to such events only.
  lemma {:induction false} StreamsAreWholesome(c: Conn, host: bool, input: Text, measured: Measured)
    ensures forall e :: e in StreamEvents(c, host, input, measured) ==> Wholesome(e)
    decreases |input|
  {
    var (m, rest) := MessageOf(host, input);
    MessagesTakeBytes(host, input);
    ClientMessagesAreWholesome(input, c, measured);
    HostMessagesAreWholesome(input, c, measured);
    if !Last(m) { StreamsAreWholesome(c, host, rest, measured); }
  }

  // In every run, the bytes of a packet a client sends are what its host receives, byte for byte, in a
  // command under the id the host knows it by; nothing that follows is touched on either side.
  lemma {:induction false} PacketCrossesToHost(es: seq<Event>, c: Conn, packet: Text, rest: Text, more: Text)
    requires Framed(packet) && c in Run(es).seats && Run(es).seats[c].id != HOST_ID
    requires GameOf(Run(es), c) < |Run(es).games|
    ensures
      var s := Run(es);
      var (m, left) := ClientMessage([TO_HOST] + packet + rest);
      var i, e := GameOf(s, c), EventOf(c, m, map[]);
      && left == rest && e.Some? && s.games[i].host.Some?
      && exists cmd ::
           && Step(s, e.value).wire.log == s.wire.log + [Sent(s.games[i].host.value, cmd)]
           && Bytes(cmd) == [FROM_CLIENT, s.seats[c].id] + packet
           && TakeCommand(Bytes(cmd) + more) == Some((cmd, more))
  {
    ToHostIsRead(packet, rest);
    RelayTheorems.UploadReachesTheHost(es, c, packet);
    CommandIsTakenBack(FromClient(Run(es).seats[c].id, packet), more);
  }

  lemma ToHostIsRead(packet: Text, rest: Text)
    requires Framed(packet)
    ensures ClientMessage([TO_HOST] + packet + rest) == (ToHost(packet), rest)
  {
    assert ([TO_HOST] + packet + rest)[1..] == packet + rest;
    PacketIsTakenBack(packet, rest);
  }

  // In every run, the bytes of a packet a host sends to a list of ids are what the listed clients
  // mentioned receive, byte for byte, once per mention and in that order.
  lemma {:induction false} PacketCrossesToClients(
    es: seq<Event>, i: nat, ids: seq<byte>, packet: Text, rest: Text, more: Text)
    requires Framed(packet) && 0 !in ids && i < |Run(es).games| && Run(es).games[i].host.Some?
    ensures
      var s := Run(es);
      var (m, left) := HostMessage([TO_CLIENTS] + ids + [0] + packet + rest);
      var c, to := s.games[i].host.value, Destinations(s.games[i].clients, ids);
      var e := EventOf(c, m, map[]);
      && left == rest && e.Some?
      && exists cmd ::
           && Step(s, e.value).wire.log == s.wire.log + seq(|to|, k requires 0 <= k < |to| => Sent(to[k], cmd))
           && Bytes(cmd) == [FROM_HOST] + packet
           && TakeCommand(Bytes(cmd) + more) == Some((cmd, more))
  {
    ToClientsIsRead(ids, packet, rest);
    RelayTheorems.MulticastReachesTheListed(es, i, ids, packet, 0);
    CommandIsTakenBack(FromHost(packet), more);
  }

  lemma ToClientsIsRead(ids: seq<byte>, packet: Text, rest: Text)
    requires Framed(packet) && 0 !in ids
    ensures HostMessage([TO_CLIENTS] + ids + [0] + packet + rest) == (ToClients(ids, packet), rest)
  {
    assert ([TO_CLIENTS] + ids + [0] + packet + rest)[1..] == ids + [0] + (packet + rest);
    IdsInFront(ids, packet + rest);
    PacketIsTakenBack(packet, rest);
  }
}
