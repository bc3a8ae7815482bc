/** Pings and timeouts (wlnr/client.go): in every run, who is cut off for a timeout had not answered. */
module RelayPings {
  import opened GoText
  import opened RelayFraming
  import opened RelayModel
  import RelayInput
  import RelayDecoding

  // Whether the last that the log tells of c's pings is one that was sent.
  function Unanswered(log: seq<Note>, c: Conn): bool {
    if log == [] then false
    else
      match log[|log| - 1]
      case Sent(to, Ping(_)) => to == c || Unanswered(log[..|log| - 1], c)
      case Ponged(from) => from != c && Unanswered(log[..|log| - 1], c)
      case _ => Unanswered(log[..|log| - 1], c)
  }

  // How many pings have been sent to c.
  function Pings(log: seq<Note>, c: Conn): nat {
    if log == [] then 0
    else
      Pings(log[..|log| - 1], c) +
      match log[|log| - 1]
      case Sent(to, Ping(_)) => if to == c then 1 else 0
      case _ => 0
  }

  // waitingForPong and lastSendPingSeq are what the log says.
  ghost predicate Counted(w: Wire, c: Conn) {
    && (c in w.waiting <==> Unanswered(w.log, c))
    && LastNumber(w, c) as int == Pings(w.log, c) % 256
  }

  // Everybody who was cut off for a timeout had an unanswered ping then.
  ghost predicate Deserved(log: seq<Note>) {
    forall k :: 0 <= k < |log| && log[k].Sent? && log[k].cmd == Disconnect(TIMEOUT) ==> Unanswered(log[..k], log[k].to)
  }

  ghost predicate PingsOk(w: Wire) {
    Deserved(w.log) && forall c: Conn :: Counted(w, c)
  }

  // A note that has nothing to do with pings.
  ghost predicate Other(note: Note) {
    !note.Ponged? && (note.Sent? ==> !note.cmd.Ping? && note.cmd != Disconnect(TIMEOUT))
  }

  lemma TellOther(w: Wire, note: Note)
    requires PingsOk(w) && Other(note)
    ensures PingsOk(Tell(w, note))
  {
    var v := Tell(w, note);
    assert v.log[..|w.log|] == w.log;
    forall c: Conn ensures Counted(v, c) {
      assert Counted(w, c);
    }
    forall k | 0 <= k < |v.log| && v.log[k].Sent? && v.log[k].cmd == Disconnect(TIMEOUT)
      ensures Unanswered(v.log[..k], v.log[k].to)
    {
      assert v.log[k] == w.log[k] && v.log[..k] == w.log[..k];
    }
  }

  lemma OtherReasons()
    ensures NORMAL != TIMEOUT && NO_HOST != TIMEOUT && WRONG_VERSION != TIMEOUT
    ensures PROTOCOL_VIOLATION != TIMEOUT && GAME_UNKNOWN != TIMEOUT
  {
    assert |NORMAL| == 6 && |TIMEOUT| == 7 && |WRONG_VERSION| == 13;
    assert |PROTOCOL_VIOLATION| == 18 && |GAME_UNKNOWN| == 12;
    assert NO_HOST[0] as int == 'N' as int && TIMEOUT[0] as int == 'T' as int;
  }

  lemma CutKeeps(w: Wire, c: Conn, reason: Text)
    requires PingsOk(w) && reason != TIMEOUT
    ensures PingsOk(Cut(w, c, reason))
  {
    if c !in w.shut {
      TellOther(w, Sent(c, Disconnect(reason)));
      ShutKeeps(Send(w, c, Disconnect(reason)), w.shut + {c});
    }
  }

  lemma ShutKeeps(w: Wire, shut: set<Conn>)
    requires PingsOk(w)
    ensures PingsOk(w.(shut := shut))
  {
    forall c: Conn ensures Counted(w.(shut := shut), c) {
      assert Counted(w, c);
    }
  }

  lemma ExpelKeeps(w: Wire, host: Option<Conn>, p: Peer, reason: Text)
    requires PingsOk(w) && reason != TIMEOUT
    ensures PingsOk(Expel(w, host, p, reason))
  {
    if host.Some? { TellOther(w, Sent(host.value, DisconnectClient(p.id))); }
    CutKeeps(if host.Some? then Send(w, host.value, DisconnectClient(p.id)) else w, p.conn, reason);
  }

  lemma {:induction false} DrainKeeps(w: Wire, host: Option<Conn>, clients: seq<Peer>)
    requires PingsOk(w)
    ensures PingsOk(Drain(w, host, clients))
    decreases |clients|
  {
    if clients != [] {
      OtherReasons();
      ExpelKeeps(w, host, clients[0], NORMAL);
      DrainKeeps(Expel(w, host, clients[0], NORMAL), host, clients[1..]);
    }
  }

  lemma {:induction false} SendEachKeeps(w: Wire, to: seq<Conn>, cmd: Command)
    requires PingsOk(w) && !cmd.Ping? && !cmd.Disconnect?
    ensures PingsOk(SendEach(w, to, cmd))
    decreases |to|
  {
    if to != [] {
      TellOther(w, Sent(to[0], cmd));
      SendEachKeeps(Send(w, to[0], cmd), to[1..], cmd);
    }
  }

  lemma ShutDownKeeps(s: Relay, i: nat)
    requires PingsOk(s.wire) && i < |s.games|
    ensures PingsOk(ShutDown(s, i).wire)
  {
    OtherReasons();
    var g := s.games[i];
    var w := Drain(s.wire, g.host, g.clients);
    DrainKeeps(s.wire, g.host, g.clients);
    if g.host.Some? { CutKeeps(w, g.host.value, NORMAL); }
    TellOther(if g.host.Some? then Cut(w, g.host.value, NORMAL) else w, Closed(g.serial, g.name));
  }

  lemma {:induction false} CloseAllKeeps(s: Relay)
    requires PingsOk(s.wire)
    ensures PingsOk(CloseAll(s).wire)
    decreases |s.games|
  {
    if s.games != [] {
      ShutDownKeeps(s, 0);
      CloseAllKeeps(ShutDown(s, 0));
    }
  }

  lemma DropKeeps(s: Relay, i: nat, c: Conn, reason: Text)
    requires PingsOk(s.wire) && i < |s.games| && reason != TIMEOUT
    ensures PingsOk(DropFrom(s, i, c, reason).wire)
  {
    var g := s.games[i];
    var k := FindPeer(g.clients, c);
    if g.host == Some(c) {
      CutKeeps(s.wire, c, reason);
      var w := Cut(s.wire, c, reason);
      DrainKeeps(w, None, g.clients);
      TellOther(Drain(w, None, g.clients), Closed(g.serial, g.name));
    } else if k < |g.clients| {
      ExpelKeeps(s.wire, g.host, g.clients[k], reason);
    }
  }

  lemma AdmitKeeps(s: Relay, i: nat, c: Conn, version: byte, password: Text)
    requires PingsOk(s.wire) && i < |s.games|
    ensures PingsOk(AddClient(s, i, c, version, password).wire)
  {
    OtherReasons();
    var g := s.games[i];
    if g.host == None {
      CutKeeps(s.wire, c, NO_HOST);
      TellOther(s.wire, Connected(g.serial, g.name));
      TellOther(Tell(s.wire, Connected(g.serial, g.name)), Sent(c, Welcome(version, g.name)));
    } else {
      CutKeeps(s.wire, c, WRONG_VERSION);
      CutKeeps(s.wire, c, NORMAL);
      TellOther(s.wire, Sent(g.host.value, ConnectClient(g.nextId)));
      TellOther(Send(s.wire, g.host.value, ConnectClient(g.nextId)), Sent(c, Welcome(g.version, g.name)));
    }
  }

  lemma GreetKeeps(s: Relay, version: byte, name: Text, password: Text)
    requires PingsOk(s.wire)
    ensures PingsOk(Greet(s, version, name, password).wire)
  {
    OtherReasons();
    var t, i := s.(accepted := s.accepted + 1), Find(s.games, name);
    CutKeeps(s.wire, s.accepted, WRONG_VERSION);
    CutKeeps(s.wire, s.accepted, GAME_UNKNOWN);
    if i < |s.games| { AdmitKeeps(t, i, s.accepted, version, password); }
  }

  lemma TellPing(w: Wire, c: Conn, number: byte)
    requires PingsOk(w) && c !in w.waiting && number as int == (LastNumber(w, c) as int + 1) % 256
    ensures PingsOk(Send(w.(waiting := w.waiting + {c}, numbers := w.numbers[c := number]), c, Ping(number)))
  {
    var v := Send(w.(waiting := w.waiting + {c}, numbers := w.numbers[c := number]), c, Ping(number));
    assert v.log[..|w.log|] == w.log;
    assert Counted(w, c);
    assert number as int == (Pings(w.log, c) + 1) % 256;
    forall d: Conn ensures Counted(v, d) {
      assert Counted(w, d);
    }
    forall k | 0 <= k < |v.log| && v.log[k].Sent? && v.log[k].cmd == Disconnect(TIMEOUT)
      ensures Unanswered(v.log[..k], v.log[k].to)
    {
      assert v.log[k] == w.log[k] && v.log[..k] == w.log[..k];
    }
  }

  // The one place where a timeout is told of.
  lemma TellTimeout(w: Wire, c: Conn)
    requires PingsOk(w) && c in w.waiting
    ensures PingsOk(Cut(w, c, TIMEOUT))
  {
    var v := Cut(w, c, TIMEOUT);
    assert Counted(w, c);
    if c !in w.shut {
      assert v.log[..|w.log|] == w.log;
      forall d: Conn ensures Counted(v, d) {
        assert Counted(w, d);
      }
      forall k | 0 <= k < |v.log| && v.log[k].Sent? && v.log[k].cmd == Disconnect(TIMEOUT)
        ensures Unanswered(v.log[..k], v.log[k].to)
      {
        if k < |w.log| { assert v.log[k] == w.log[k] && v.log[..k] == w.log[..k]; }
      }
    }
  }

  lemma TickKeeps(w: Wire, c: Conn)
    requires PingsOk(w)
    ensures PingsOk(Tick(w, c))
  {
    if c !in w.shut {
      if c in w.waiting { TellTimeout(w, c); } else { TellPing(w, c, ((LastNumber(w, c) as int + 1) % 256) as byte); }
    }
  }

  lemma PongKeeps(w: Wire, c: Conn)
    requires PingsOk(w)
    ensures PingsOk(HearPong(w, c))
  {
    var v := HearPong(w, c);
    assert v.log[..|w.log|] == w.log;
    forall d: Conn ensures Counted(v, d) {
      assert Counted(w, d);
    }
    forall k | 0 <= k < |v.log| && v.log[k].Sent? && v.log[k].cmd == Disconnect(TIMEOUT)
      ensures Unanswered(v.log[..k], v.log[k].to)
    {
      assert v.log[k] == w.log[k] && v.log[..k] == w.log[..k];
    }
  }

  lemma ForwardKeeps(s: Relay, e: Event)
    requires PingsOk(s.wire) && (e.Upload? || e.Multicast? || e.AskRtt?)
    ensures PingsOk(Step(s, e).wire)
  {
    var i := GameOf(s, e.conn);
    match e
    case Upload(c, packet) =>
      TellOther(s.wire, NilHost(c));
      if c in s.seats && i < |s.games| && s.games[i].host.Some? {
        TellOther(s.wire, Sent(s.games[i].host.value, FromClient(s.seats[c].id, packet)));
      }
    case Multicast(c, ids, packet) =>
      if i < |s.games| { SendEachKeeps(s.wire, Destinations(s.games[i].clients, ids), FromHost(packet)); }
    case AskRtt(c, measured) =>
      TellOther(s.wire, Sent(c, RttReply([], measured)));
      if i < |s.games| {
        TellOther(s.wire, Sent(c, RttReply(Members(s.games[i].host, s.games[i].clients), measured)));
      }
  }

  lemma OrderKeeps(s: Relay, e: Event)
    requires PingsOk(s.wire) && (e.Create? || e.Remove? || e.HostTimer? || e.Garbled?)
    ensures PingsOk(Step(s, e).wire)
  {
    match e
    case Create(name, password) => TellOther(s.wire, Created(s.created, name));
    case Remove(name) =>
      var i := Find(s.games, name);
      if i < |s.games| { ShutDownKeeps(s, i); }
    case HostTimer(name) =>
      var i := Find(s.games, name);
      if i < |s.games| { TellOther(s.wire, Closed(s.games[i].serial, s.games[i].name)); }
    case Garbled =>
      OtherReasons();
      CutKeeps(s.wire, s.accepted, PROTOCOL_VIOLATION);
  }

  // The relay gives a timeout as a reason to its ping loops only.
  ghost predicate NoTimeoutGiven(e: Event) {
    e.Lost? ==> e.reason != TIMEOUT
  }

  lemma {:induction false} StepKeepsPings(s: Relay, e: Event)
    requires PingsOk(s.wire) && NoTimeoutGiven(e)
    ensures PingsOk(Step(s, e).wire)
  {
    if e.Create? || e.Remove? || e.HostTimer? || e.Garbled? {
      OrderKeeps(s, e);
    } else if e.Hello? {
      GreetKeeps(s, e.version, e.name, e.password);
    } else if e.Lost? {
      var i := GameOf(s, e.conn);
      if i < |s.games| { DropKeeps(s, i, e.conn, e.reason); }
    } else if e.PingTimer? {
      TickKeeps(s.wire, e.conn);
    } else if e.PongFrom? {
      PongKeeps(s.wire, e.conn);
    } else if e.Halt? {
      CloseAllKeeps(s);
    } else {
      ForwardKeeps(s, e);
    }
  }

  lemma {:induction false} RunKeepsPings(es: seq<Event>)
    requires forall k :: 0 <= k < |es| ==> NoTimeoutGiven(es[k])
    ensures PingsOk(Run(es).wire)
  {
    if es != [] {
      RunKeepsPings(es[..|es| - 1]);
      StepKeepsPings(Run(es[..|es| - 1]), es[|es| - 1]);
    }
  }

  // What is read from connections gives no such reason.
  lemma {:induction false} ArisingGivesNoTimeout(e: Event)
    requires RelayDecoding.Arises(e)
    ensures NoTimeoutGiven(e)
  {
    if e.Lost? {
      var host, input, measured :| e in RelayInput.StreamEvents(e.conn, host, input, measured);
      RelayInput.StreamsAreWholesome(e.conn, host, input, measured);
      OtherReasons();
    }
  }

  lemma {:induction false} ArisingRunKeepsPings(es: seq<Event>)
    requires forall j :: 0 <= j < |es| ==> RelayDecoding.Arises(es[j])
    ensures PingsOk(Run(es).wire)
  {
    forall j | 0 <= j < |es| ensures NoTimeoutGiven(es[j]) {
      ArisingGivesNoTimeout(es[j]);
    }
    RunKeepsPings(es);
  }

  // In every run whose events arise from received bytes, whoever is cut off for a timeout has at that
  // moment left a ping unanswered.
  lemma {:induction false} TimeoutsAreDeserved(es: seq<Event>, k: nat)
    requires forall j :: 0 <= j < |es| ==> RelayDecoding.Arises(es[j])
    requires k < |Run(es).wire.log| && Run(es).wire.log[k].Sent? && Run(es).wire.log[k].cmd == Disconnect(TIMEOUT)
    ensures Unanswered(Run(es).wire.log[..k], Run(es).wire.log[k].to)
  {
    ArisingRunKeepsPings(es);
  }

  // And when the timer of an open connection goes off, that is exactly what decides: it is cut off if
  // its last ping has not been answered; otherwise it gets the next ping, numbered on modulo 256.
  lemma {:induction false} TimerDecides(es: seq<Event>, c: Conn)
    requires forall j :: 0 <= j < |es| ==> RelayDecoding.Arises(es[j])
    requires c < Run(es).accepted && c !in Run(es).wire.shut
    ensures
      var log := Run(es).wire.log;
      Step(Run(es), PingTimer(c)).wire.log == log +
        if Unanswered(log, c) then [Sent(c, Disconnect(TIMEOUT))] else [Sent(c, Ping(NextNumber(log, c)))]
  {
    ArisingRunKeepsPings(es);
    TickDecides(Run(es).wire, c);
  }

  function NextNumber(log: seq<Note>, c: Conn): byte {
    ((Pings(log, c) + 1) % 256) as byte
  }

  lemma TickDecides(w: Wire, c: Conn)
    requires PingsOk(w) && c !in w.shut
    ensures
      Tick(w, c).log == w.log +
        if Unanswered(w.log, c) then [Sent(c, Disconnect(TIMEOUT))] else [Sent(c, Ping(NextNumber(w.log, c)))]
  {
    assert Counted(w, c);
    assert (LastNumber(w, c) as int + 1) % 256 == (Pings(w.log, c) + 1) % 256;
  }
}
