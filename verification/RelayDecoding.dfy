/** In every run, the bytes a peer receives decode to exactly the commands the relay sent it. */
module RelayDecoding {
  import opened GoText
  import opened RelayFraming
  import opened RelayModel
  import opened RelayInvariant
  import RelayTheorems
  import RelayInput
  import PacketCodec

  // What the relay's own readers and the metaserver's packets guarantee of their results: strings
  // without NUL, packets that carry their length.
  ghost predicate Clean(e: Event) {
    match e
    case Create(name, _) => NUL !in name
    case Lost(_, reason) => NUL !in reason
    case Upload(_, packet) => Framed(packet)
    case Multicast(_, _, packet) => Framed(packet)
    case _ => true
  }

  ghost predicate CleanWire(w: Wire) {
    forall k :: 0 <= k < |w.log| && w.log[k].Sent? ==> WellFormed(w.log[k].cmd)
  }

  ghost predicate CleanRelay(s: Relay) {
    CleanWire(s.wire) && forall i :: 0 <= i < |s.games| ==> NUL !in s.games[i].name
  }

  lemma ReasonsAreClean()
    ensures NUL !in NORMAL && NUL !in NO_HOST && NUL !in WRONG_VERSION
    ensures NUL !in PROTOCOL_VIOLATION && NUL !in GAME_UNKNOWN && NUL !in TIMEOUT
  {
    AsciiIsClean("NORMAL"); AsciiIsClean("NO_HOST"); AsciiIsClean("WRONG_VERSION");
    AsciiIsClean("PROTOCOL_VIOLATION"); AsciiIsClean("GAME_UNKNOWN"); AsciiIsClean("TIMEOUT");
  }

  lemma AsciiIsClean(s: string)
    requires forall i :: 0 <= i < |s| ==> 0 < (s[i] as int) < 128
    ensures NUL !in Ascii(s)
  {
  }

  lemma CutIsClean(w: Wire, c: Conn, reason: Text)
    requires CleanWire(w) && NUL !in reason
    ensures CleanWire(Cut(w, c, reason))
  {
  }

  lemma ExpelIsClean(w: Wire, host: Option<Conn>, p: Peer, reason: Text)
    requires CleanWire(w) && NUL !in reason
    ensures CleanWire(Expel(w, host, p, reason))
  {
    CutIsClean(if host.Some? then Send(w, host.value, DisconnectClient(p.id)) else w, p.conn, reason);
  }

  lemma {:induction false} DrainIsClean(w: Wire, host: Option<Conn>, clients: seq<Peer>)
    requires CleanWire(w)
    ensures CleanWire(Drain(w, host, clients))
    decreases |clients|
  {
    if clients != [] {
      ReasonsAreClean();
      ExpelIsClean(w, host, clients[0], NORMAL);
      DrainIsClean(Expel(w, host, clients[0], NORMAL), host, clients[1..]);
    }
  }

  lemma {:induction false} SendEachIsClean(w: Wire, to: seq<Conn>, cmd: Command)
    requires CleanWire(w) && WellFormed(cmd)
    ensures CleanWire(SendEach(w, to, cmd))
    decreases |to|
  {
    if to != [] {
      SendEachIsClean(Send(w, to[0], cmd), to[1..], cmd);
    }
  }

  lemma CloseIsClean(s: Relay, i: nat, w: Wire)
    requires CleanRelay(s) && i < |s.games| && CleanWire(w)
    ensures CleanRelay(Close(s, i, w))
  {
  }

  lemma ShutDownIsClean(s: Relay, i: nat)
    requires CleanRelay(s) && i < |s.games|
    ensures CleanRelay(ShutDown(s, i))
  {
    var g := s.games[i];
    var w := Drain(s.wire, g.host, g.clients);
    DrainIsClean(s.wire, g.host, g.clients);
    ReasonsAreClean();
    if g.host.Some? { CutIsClean(w, g.host.value, NORMAL); }
    CloseIsClean(s, i, if g.host.Some? then Cut(w, g.host.value, NORMAL) else w);
  }

  lemma DropIsClean(s: Relay, i: nat, c: Conn, reason: Text)
    requires CleanRelay(s) && i < |s.games| && NUL !in reason
    ensures CleanRelay(DropFrom(s, i, c, reason))
  {
    var g := s.games[i];
    var k := FindPeer(g.clients, c);
    if g.host == Some(c) {
      CutIsClean(s.wire, c, reason);
      DrainIsClean(Cut(s.wire, c, reason), None, g.clients);
      CloseIsClean(s, i, Drain(Cut(s.wire, c, reason), None, g.clients));
    } else if k < |g.clients| {
      ExpelIsClean(s.wire, g.host, g.clients[k], reason);
    }
  }

  lemma GreetIsClean(s: Relay, version: byte, name: Text, password: Text)
    requires CleanRelay(s)
    ensures CleanRelay(Greet(s, version, name, password))
  {
    ReasonsAreClean();
    CutIsClean(s.wire, s.accepted, WRONG_VERSION);
    CutIsClean(s.wire, s.accepted, GAME_UNKNOWN);
    CutIsClean(s.wire, s.accepted, NO_HOST);
    CutIsClean(s.wire, s.accepted, NORMAL);
  }

  lemma {:induction false} CloseAllIsClean(s: Relay)
    requires CleanRelay(s)
    ensures CleanRelay(CloseAll(s))
    decreases |s.games|
  {
    if s.games != [] {
      ShutDownIsClean(s, 0);
      CloseAllIsClean(ShutDown(s, 0));
    }
  }

  lemma MulticastIsClean(s: Relay, e: Event)
    requires CleanRelay(s) && Clean(e) && e.Multicast?
    ensures CleanRelay(Step(s, e))
  {
    var i := GameOf(s, e.conn);
    if i < |s.games| { SendEachIsClean(s.wire, Destinations(s.games[i].clients, e.ids), FromHost(e.packet)); }
  }

  lemma AskRttIsClean(s: Relay, e: Event)
    requires Inv(s) && CleanRelay(s) && e.AskRtt?
    ensures CleanRelay(Step(s, e))
  {
    var i := GameOf(s, e.conn);
    if i < |s.games| { RelayTheorems.RttReplyOf(s.games[i], e.measured); }
  }

  lemma ForwardingIsClean(s: Relay, e: Event)
    requires Inv(s) && CleanRelay(s) && Clean(e) && Forwarding(e)
    ensures CleanRelay(Step(s, e))
  {
    if e.Multicast? {
      MulticastIsClean(s, e);
    } else if e.AskRtt? {
      AskRttIsClean(s, e);
    } else if e.PingTimer? {
      ReasonsAreClean();
      CutIsClean(s.wire, e.conn, TIMEOUT);
    }
  }

  lemma {:induction false} OrderIsClean(s: Relay, e: Event)
    requires CleanRelay(s) && Clean(e) && (e.Create? || e.Remove? || e.HostTimer?)
    ensures CleanRelay(Step(s, e))
  {
    if e.Remove? {
      var i := Find(s.games, e.name);
      if i < |s.games| { ShutDownIsClean(s, i); }
    }
  }

  lemma {:induction false} ArrivalIsClean(s: Relay, e: Event)
    requires CleanRelay(s) && (e.Garbled? || e.Hello?)
    ensures CleanRelay(Step(s, e))
  {
    if e.Hello? {
      GreetIsClean(s, e.version, e.name, e.password);
    } else {
      ReasonsAreClean();
      CutIsClean(s.wire, s.accepted, PROTOCOL_VIOLATION);
    }
  }

  lemma {:induction false} LossIsClean(s: Relay, c: Conn, reason: Text)
    requires CleanRelay(s) && NUL !in reason
    ensures CleanRelay(Step(s, Lost(c, reason)))
  {
    var i := GameOf(s, c);
    if i < |s.games| { DropIsClean(s, i, c, reason); }
  }

  lemma {:induction false} StepIsClean(s: Relay, e: Event)
    requires Inv(s) && CleanRelay(s) && Clean(e)
    ensures CleanRelay(Step(s, e))
  {
    if e.Create? || e.Remove? || e.HostTimer? {
      OrderIsClean(s, e);
    } else if e.Garbled? || e.Hello? {
      ArrivalIsClean(s, e);
    } else if e.Lost? {
      LossIsClean(s, e.conn, e.reason);
    } else if e.Halt? {
      CloseAllIsClean(s);
    } else {
      ForwardingIsClean(s, e);
    }
  }

  lemma {:induction false} RunIsClean(es: seq<Event>)
    requires forall k :: 0 <= k < |es| ==> Clean(es[k])
    ensures CleanRelay(Run(es))
  {
    if es != [] {
      RunIsClean(es[..|es| - 1]);
      RunKeeps(es[..|es| - 1]);
      StepIsClean(Run(es[..|es| - 1]), es[|es| - 1]);
    }
  }

  // The commands sent to one connection, in order.
  function SentTo(log: seq<Note>, c: Conn): seq<Command> {
    if log == [] then []
    else
      SentTo(log[..|log| - 1], c) +
      match log[|log| - 1]
      case Sent(to, cmd) => if to == c then [cmd] else []
      case _ => []
  }

  lemma {:induction false} SentIsWellFormed(w: Wire, c: Conn)
    requires CleanWire(w)
    ensures forall k :: 0 <= k < |SentTo(w.log, c)| ==> WellFormed(SentTo(w.log, c)[k])
    decreases |w.log|
  {
    if w.log != [] {
      SentIsWellFormed(w.(log := w.log[..|w.log| - 1]), c);
    }
  }

  // Where events come from: game names are fields of packets the metaserver has read, and whatever a
  // member does is read from the bytes of its connection.
  ghost predicate Arises(e: Event) {
    match e
    case Create(name, _) =>
      exists input, fields, rest :: PacketCodec.Read(input) == PacketCodec.Parsed(fields, rest) && name in fields
    case Upload(c, _) => Received(c, e)
    case Multicast(c, _, _) => Received(c, e)
    case Lost(c, _) => Received(c, e)
    case AskRtt(c, _) => Received(c, e)
    case PongFrom(c, _) => Received(c, e)
    case _ => true
  }

  ghost predicate Received(c: Conn, e: Event) {
    exists host, input, measured :: e in RelayInput.StreamEvents(c, host, input, measured)
  }

  lemma {:induction false} ArisesClean(e: Event)
    requires Arises(e)
    ensures Clean(e)
  {
    if e.Create? {
      var input, fields, rest :| PacketCodec.Read(input) == PacketCodec.Parsed(fields, rest) && e.name in fields;
      var size := input[0] as int * 256 + input[1] as int;
      PacketCodec.PartsAreNulFree(input[2..size]);
    } else if e.Upload? || e.Multicast? || e.Lost? {
      var host, input, measured :| e in RelayInput.StreamEvents(e.conn, host, input, measured);
      RelayInput.StreamsAreWholesome(e.conn, host, input, measured);
      ReasonsAreClean();
    }
  }

  // In every run whose events arise from received bytes, whatever the relay wrote to a connection,
  // pings included, is decoded by the other side, with the same readers, into exactly the commands
  // that were sent, with nothing left over.
  lemma {:induction false} EverythingSentIsUnderstood(es: seq<Event>, c: Conn)
    requires forall k :: 0 <= k < |es| ==> Arises(es[k])
    ensures var cmds := SentTo(Run(es).wire.log, c); TakeCommands(AllBytes(cmds)) == (cmds, [])
  {
    forall k | 0 <= k < |es| ensures Clean(es[k]) {
      ArisesClean(es[k]);
    }
    RunIsClean(es);
    SentIsWellFormed(Run(es).wire, c);
    CommandsAreTakenBack(SentTo(Run(es).wire.log, c));
  }
}
