/** The relay's protocol in numbers (wlnr/command_codes.go). Printers and readers share the named codes; here
    both are held against the numbers themselves. */
module RelayCodes {
  import opened GoText
  import opened RelayFraming
  import opened RelayModel
  import RelayInvariant
  import RelayTheorems
  import RelayInput

  // ---------------------------------------------------------------- what is sent

  // A peer that reads by number understands what the relay prints.
  lemma PeersReadByNumber(cmd: Command, id: byte, text: Text, packet: Text, rest: Text)
    requires NUL !in text && Framed(packet)
    ensures TakeCommand([2, id] + text + [0] + rest) == Some((Welcome(id, text), rest))
    ensures TakeCommand([3] + text + [0] + rest) == Some((Disconnect(text), rest))
    ensures TakeCommand([4, id] + rest) == Some((Ping(id), rest))
    ensures TakeCommand([11, id] + rest) == Some((ConnectClient(id), rest))
    ensures TakeCommand([12, id] + rest) == Some((DisconnectClient(id), rest))
    ensures TakeCommand([14, id] + packet + rest) == Some((FromClient(id, packet), rest))
    ensures TakeCommand([22] + packet + rest) == Some((FromHost(packet), rest))
  {
    CommandIsTakenBack(Welcome(id, text), rest);
    CommandIsTakenBack(Disconnect(text), rest);
    CommandIsTakenBack(Ping(id), rest);
    CommandIsTakenBack(ConnectClient(id), rest);
    CommandIsTakenBack(DisconnectClient(id), rest);
    CommandIsTakenBack(FromClient(id, packet), rest);
    CommandIsTakenBack(FromHost(packet), rest);
  }

  // The bytes of every command begin with its number, and go on as the numbers say.
  lemma CommandsInBytes(cmd: Command)
    ensures
      Bytes(cmd) ==
      match cmd
      case Welcome(version, name) => [2, version] + name + [0]
      case Disconnect(reason) => [3] + reason + [0]
      case Ping(number) => [4, number]
      case RttResponse(count, rtts) => [7, count] + Bytes(cmd)[2..]
      case ConnectClient(id) => [11, id]
      case DisconnectClient(id) => [12, id]
      case FromClient(id, packet) => [14, id] + packet
      case FromHost(packet) => [22] + packet
    ensures cmd.RttResponse? ==> |Bytes(cmd)| == 2 + 3 * |cmd.rtts|
    ensures
      cmd.RttResponse? ==>
        forall k :: 0 <= k < |cmd.rtts| ==>
          Bytes(cmd)[2 + 3 * k..][..3] == [cmd.rtts[k].id, cmd.rtts[k].ms, cmd.rtts[k].s]
  {
    if cmd.RttResponse? {
      var tail := RttBytes(cmd.rtts);
      TriplesInBytes(cmd.rtts);
      assert Bytes(cmd) == [7, cmd.count] + tail;
      forall k | 0 <= k < |cmd.rtts|
        ensures Bytes(cmd)[2 + 3 * k..][..3] == [cmd.rtts[k].id, cmd.rtts[k].ms, cmd.rtts[k].s]
      {
        assert Bytes(cmd)[2 + 3 * k..] == tail[3 * k..];
      }
    }
  }

  lemma {:induction false} TriplesInBytes(rtts: seq<Rtt>)
    ensures |RttBytes(rtts)| == 3 * |rtts|
    ensures forall k :: 0 <= k < |rtts| ==> RttBytes(rtts)[3 * k..][..3] == [rtts[k].id, rtts[k].ms, rtts[k].s]
  {
    if rtts != [] {
      var rest, tail := rtts[1..], RttBytes(rtts[1..]);
      TriplesInBytes(rest);
      forall k | 0 <= k < |rtts| ensures RttBytes(rtts)[3 * k..][..3] == [rtts[k].id, rtts[k].ms, rtts[k].s] {
        if k > 0 {
          assert RttBytes(rtts)[3 * k..] == tail[3 * (k - 1)..];
          assert rest[k - 1] == rtts[k];
        }
      }
    }
  }

  // ---------------------------------------------------------------- what hosts make of it

  // Who is connected, as a host learns it from the bytes it is sent: 11 brings a client, 12 takes one away.
  function LearnBytes(known: set<byte>, sent: Text): set<byte> {
    if |sent| == 2 && sent[0] == 11 then known + {sent[1]}
    else if |sent| == 2 && sent[0] == 12 then known - {sent[1]}
    else known
  }

  function PictureInBytes(log: seq<Note>, c: Conn): set<byte> {
    if log == [] then {}
    else
      var before, note := PictureInBytes(log[..|log| - 1], c), log[|log| - 1];
      if note.Sent? && note.to == c then LearnBytes(before, Bytes(note.cmd)) else before
  }

  lemma LearnsByNumber(known: set<byte>, cmd: Command, c: Conn)
    ensures LearnBytes(known, Bytes(cmd)) == Learn(known, Sent(c, cmd), c)
  {
    CommandsInBytes(cmd);
    assert Bytes(cmd)[0] == 11 ==> cmd.ConnectClient?;
    assert Bytes(cmd)[0] == 12 ==> cmd.DisconnectClient?;
  }

  lemma {:induction false} PicturesInBytes(log: seq<Note>, c: Conn)
    ensures PictureInBytes(log, c) == Picture(log, c)
  {
    if log != [] {
      PicturesInBytes(log[..|log| - 1], c);
      var note := log[|log| - 1];
      if note.Sent? { LearnsByNumber(Picture(log[..|log| - 1], c), note.cmd, c); }
    }
  }

  // In every run, a host that takes 11 for an arrival and 12 for a departure knows exactly the clients
  // in its game's list.
  lemma {:induction false} HostsReadTheirClients(es: seq<Event>, i: nat)
    requires i < |Run(es).games| && Run(es).games[i].host.Some?
    ensures
      var g := Run(es).games[i];
      forall id :: id in PictureInBytes(Run(es).wire.log, g.host.value) <==> exists p :: p in g.clients && p.id == id
  {
    var g := Run(es).games[i];
    RelayTheorems.HostsKnowTheirClients(es, i);
    PicturesInBytes(Run(es).wire.log, g.host.value);
  }

  // ---------------------------------------------------------------- what is received

  // Members of a game are understood by number.
  lemma MembersAreReadByNumber(n: byte, ids: seq<byte>, packet: Text, rest: Text)
    requires Framed(packet) && 0 !in ids
    ensures ClientMessage([21] + packet + rest) == (ToHost(packet), rest)
    ensures HostMessage([13] + ids + [0] + packet + rest) == (ToClients(ids, packet), rest)
    ensures ClientMessage([3] + rest) == HostMessage([3] + rest) == (Leave, rest)
    ensures ClientMessage([5, n] + rest) == HostMessage([5, n] + rest) == (Pong(n), rest)
    ensures ClientMessage([6] + rest) == HostMessage([6] + rest) == (AskRtts, rest)
    ensures n !in {3, 5, 6, 21} ==> ClientMessage([n] + rest) == (Skipped(n), rest)
    ensures n !in {3, 5, 6, 13} ==> HostMessage([n] + rest) == (Skipped(n), rest)
  {
    RelayInput.ToHostIsRead(packet, rest);
    RelayInput.ToClientsIsRead(ids, packet, rest);
    assert ([n] + rest)[1..] == rest && ([3] + rest)[1..] == rest && ([6] + rest)[1..] == rest;
    assert ([5, n] + rest)[1..] == [n] + rest;
  }

  // A greeting is a 1, the protocol version, which has to be 1, and two strings.
  lemma GreetingsAreReadByNumber(n: byte, version: byte, name: Text, password: Text, rest: Text)
    requires NUL !in name && NUL !in password
    ensures RelayInput.Greeting([1, 1] + name + [0] + password + [0] + rest) == (Hello(1, name, password), rest)
    ensures version != 1 ==> RelayInput.Greeting([1, version] + rest) == (Hello(version, [], []), rest)
    ensures n != 1 ==> RelayInput.Greeting([n] + rest) == (Garbled, [])
  {
    var input := [1, 1] + name + [0] + password + [0] + rest;
    assert input[2..] == name + [0] + (password + [0] + rest);
    StringIsTakenBack(name, password + [0] + rest);
    StringIsTakenBack(password, rest);
    assert ([1, version] + rest)[2..] == rest;
  }

  // ---------------------------------------------------------------- round trip times

  // What is said of a member: its id, the milliseconds of its last ping and the seconds since its last pong,
  // neither more than 255.
  function Measurement(id: byte, ms: nat, s: nat): Rtt {
    Rtt(id, if ms < 255 then ms as byte else 255, if s < 255 then s as byte else 255)
  }

  function MeasurementOf(id: byte, c: Conn, measured: Measured): Rtt {
    if c in measured then Measurement(id, measured[c].0, measured[c].1) else Measurement(id, 0, 0)
  }

  // The host, under the number 1, and then the clients.
  function Measurements(host: Conn, clients: seq<Peer>, measured: Measured): seq<Rtt> {
    [MeasurementOf(1, host, measured)]
    + seq(|clients|, k requires 0 <= k < |clients| => MeasurementOf(clients[k].id, clients[k].conn, measured))
  }

  // In every run, a member of a listed game that asks for round trip times is told, in one command, of the
  // host and of all clients in list order.
  lemma {:induction false} RttsAreReported(es: seq<Event>, c: Conn, measured: Measured)
    requires c in Run(es).seats && GameOf(Run(es), c) < |Run(es).games|
    ensures
      var s := Run(es);
      var g := s.games[GameOf(s, c)];
      && g.host.Some? && |g.clients| < 249
      && Step(s, AskRtt(c, measured)).wire.log ==
           s.wire.log
           + [Sent(c, RttResponse((1 + |g.clients|) as byte, Measurements(g.host.value, g.clients, measured)))]
  {
    var s := Run(es);
    var i := GameOf(s, c);
    var g := s.games[i];
    RelayInvariant.RunKeeps(es);
    assert RelayInvariant.SeatOk(s.seats[c], g);
    RelayTheorems.RttReplyIsExact(es, i, measured);
    TriplesAre(g, measured);
  }

  lemma TriplesAre(g: Game, measured: Measured)
    requires g.host.Some?
    ensures Triples(Members(g.host, g.clients), measured) == Measurements(g.host.value, g.clients, measured)
  {
    var members, ts := Members(g.host, g.clients), Triples(Members(g.host, g.clients), measured);
    var ms := Measurements(g.host.value, g.clients, measured);
    assert |ts| == |ms|;
    forall k | 0 <= k < |ts| ensures ts[k] == ms[k] {
      assert ts[k] == RttOf(members[k], measured);
      assert k > 0 ==> members[k] == g.clients[k - 1];
    }
  }
}
