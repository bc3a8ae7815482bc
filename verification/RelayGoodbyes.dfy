/** How connections to the relay end (wlnr/client.go, wlnr/game.go): everyone who is cut off has been told so
    once, with the reason, and nobody is left connected to a game that is gone. */
module RelayGoodbyes {
  import opened GoText
  import opened RelayFraming
  import opened RelayModel
  import opened RelayInvariant
  import RelayTheorems

  // The reasons c has been sent away with, in order.
  function Goodbyes(log: seq<Note>, c: Conn): seq<Text> {
    if log == [] then []
    else
      Goodbyes(log[..|log| - 1], c) +
      match log[|log| - 1]
      case Sent(to, Disconnect(reason)) => if to == c then [reason] else []
      case _ => []
  }

  // The reason for which an event ends a connection.
  function Why(s: Relay, e: Event, c: Conn): Text {
    match e
    case Lost(d, reason) => if c == d then reason else Ascii("NORMAL")
    case PingTimer(_) => Ascii("TIMEOUT")
    case Garbled => Ascii("PROTOCOL_VIOLATION")
    case Hello(version, name, _) =>
      if version != 1 then Ascii("WRONG_VERSION")
      else if forall i :: 0 <= i < |s.games| ==> s.games[i].name != name then Ascii("GAME_UNKNOWN")
      else if exists i :: 0 <= i < |s.games| && s.games[i].name == name && s.games[i].host.Some? then Ascii("NORMAL")
      else Ascii("NO_HOST")
    case _ => Ascii("NORMAL")
  }

  // From w to v exactly those newly cut off, all of them below n, have been told, once and for the reason
  // why gives.
  ghost predicate Parts(w: Wire, v: Wire, why: Conn -> Text, n: nat) {
    && w.shut <= v.shut && (forall c :: c in v.shut ==> c in w.shut || c < n)
    && (forall c: Conn ::
          Goodbyes(v.log, c) == Goodbyes(w.log, c) + if c in v.shut && c !in w.shut then [why(c)] else [])
  }

  lemma PartsOn(u: Wire, v: Wire, w: Wire, why: Conn -> Text, n: nat)
    requires Parts(u, v, why, n) && Parts(v, w, why, n)
    ensures Parts(u, w, why, n)
  {
  }

  ghost predicate NoGoodbye(note: Note) {
    note.Sent? ==> !note.cmd.Disconnect?
  }

  lemma TellParts(w: Wire, note: Note, why: Conn -> Text, n: nat)
    requires NoGoodbye(note)
    ensures Parts(w, Tell(w, note), why, n)
  {
    assert Tell(w, note).log[..|w.log|] == w.log;
  }

  lemma CutParts(w: Wire, c: Conn, reason: Text, why: Conn -> Text, n: nat)
    requires why(c) == reason && c < n
    ensures Parts(w, Cut(w, c, reason), why, n) && c in Cut(w, c, reason).shut
  {
    assert Send(w, c, Disconnect(reason)).log[..|w.log|] == w.log;
  }

  lemma ExpelParts(w: Wire, host: Option<Conn>, p: Peer, reason: Text, why: Conn -> Text, n: nat)
    requires why(p.conn) == reason && p.conn < n
    ensures Parts(w, Expel(w, host, p, reason), why, n) && p.conn in Expel(w, host, p, reason).shut
  {
    var v := if host.Some? then Send(w, host.value, DisconnectClient(p.id)) else w;
    if host.Some? { TellParts(w, Sent(host.value, DisconnectClient(p.id)), why, n); }
    CutParts(v, p.conn, reason, why, n);
    PartsOn(w, v, Cut(v, p.conn, reason), why, n);
  }

  ghost predicate Cutable(clients: seq<Peer>, why: Conn -> Text, n: nat) {
    forall k :: 0 <= k < |clients| ==> clients[k].conn < n && why(clients[k].conn) == Ascii("NORMAL")
  }

  lemma {:induction false} DrainParts(w: Wire, host: Option<Conn>, clients: seq<Peer>, why: Conn -> Text, n: nat)
    requires Cutable(clients, why, n)
    ensures Parts(w, Drain(w, host, clients), why, n)
    ensures forall k :: 0 <= k < |clients| ==> clients[k].conn in Drain(w, host, clients).shut
    decreases |clients|
  {
    if clients != [] {
      var v := Expel(w, host, clients[0], NORMAL);
      ExpelParts(w, host, clients[0], NORMAL, why, n);
      DrainParts(v, host, clients[1..], why, n);
      PartsOn(w, v, Drain(w, host, clients), why, n);
      assert forall k :: 1 <= k < |clients| ==> clients[k] == clients[1..][k - 1];
    }
  }

  lemma {:induction false} SendEachParts(w: Wire, to: seq<Conn>, cmd: Command, why: Conn -> Text, n: nat)
    requires !cmd.Disconnect?
    ensures Parts(w, SendEach(w, to, cmd), why, n)
    decreases |to|
  {
    if to != [] {
      TellParts(w, Sent(to[0], cmd), why, n);
      SendEachParts(Send(w, to[0], cmd), to[1..], cmd, why, n);
      PartsOn(w, Send(w, to[0], cmd), SendEach(w, to, cmd), why, n);
    }
  }

  // ---------------------------------------------------------------- nobody is left behind

  ghost predicate Sits(s: Relay, c: Conn) {
    exists i :: 0 <= i < |s.games| && SitsIn(s, s.games[i], c)
  }

  ghost predicate SitsIn(s: Relay, g: Game, c: Conn) {
    c in s.seats && (g.host == Some(c) || Peer(c, s.seats[c].id) in g.clients)
  }

  // Whoever was ever admitted sits in a listed game or has been cut off.
  ghost predicate SeatedOrShut(s: Relay) {
    forall c :: c in s.seats ==> c in s.wire.shut || Sits(s, c)
  }

  ghost predicate Partings(s: Relay, t: Relay, why: Conn -> Text) {
    && Parts(s.wire, t.wire, why, t.accepted) && s.accepted <= t.accepted
    && (SeatedOrShut(s) ==> SeatedOrShut(t))
  }

  lemma PartingsOn(s: Relay, t: Relay, u: Relay, why: Conn -> Text)
    requires Partings(s, t, why) && Partings(t, u, why) && t.accepted == u.accepted
    ensures Partings(s, u, why)
  {
    PartsOn(s.wire, t.wire, u.wire, why, u.accepted);
  }

  // A game that is closed has let go of everybody.
  lemma ClosePartings(s: Relay, i: nat, w: Wire, why: Conn -> Text)
    requires Inv(s) && i < |s.games| && Parts(s.wire, w, why, s.accepted)
    requires forall c :: SitsIn(s, s.games[i], c) ==> c in w.shut
    ensures Partings(s, Close(s, i, w), why)
  {
    var t := Close(s, i, w);
    TellParts(w, Closed(s.games[i].serial, s.games[i].name), why, s.accepted);
    PartsOn(s.wire, w, t.wire, why, s.accepted);
    if SeatedOrShut(s) {
      forall c | c in t.seats && c !in t.wire.shut ensures Sits(t, c) {
        assert Sits(s, c);
        StillSits(s, i, t, c);
      }
    }
  }

  lemma StillSits(s: Relay, i: nat, t: Relay, c: Conn)
    requires i < |s.games| && t.games == Without(s.games, i) && t.seats == s.seats
    requires Sits(s, c) && !SitsIn(s, s.games[i], c)
    ensures Sits(t, c)
  {
    var k :| 0 <= k < |s.games| && SitsIn(s, s.games[k], c);
    assert t.games[if k < i then k else k - 1] == s.games[k];
  }

  lemma MembersAreBelow(s: Relay, i: nat)
    requires Inv(s) && i < |s.games|
    ensures s.games[i].host.Some? ==> s.games[i].host.value < s.accepted
    ensures forall k :: 0 <= k < |s.games[i].clients| ==> s.games[i].clients[k].conn < s.accepted
    ensures forall k :: 0 <= k < |s.games[i].clients| ==> s.games[i].host != Some(s.games[i].clients[k].conn)
  {
    assert Seated(s.seats, s.games[i]) && IdsOk(s.games[i]);
  }

  lemma ShutDownPartings(s: Relay, i: nat, why: Conn -> Text)
    requires Inv(s) && i < |s.games| && forall c: Conn :: why(c) == Ascii("NORMAL")
    ensures Partings(s, ShutDown(s, i), why)
  {
    var g := s.games[i];
    var v := Drain(s.wire, g.host, g.clients);
    MembersAreBelow(s, i);
    DrainParts(s.wire, g.host, g.clients, why, s.accepted);
    var w := if g.host.Some? then Cut(v, g.host.value, NORMAL) else v;
    if g.host.Some? {
      CutParts(v, g.host.value, NORMAL, why, s.accepted);
      PartsOn(s.wire, v, w, why, s.accepted);
    }
    ClosePartings(s, i, w, why);
  }

  lemma HostLostPartings(s: Relay, i: nat, reason: Text, why: Conn -> Text)
    requires Inv(s) && i < |s.games| && s.games[i].host.Some?
    requires forall c: Conn :: why(c) == if s.games[i].host == Some(c) then reason else Ascii("NORMAL")
    ensures Partings(s, HostLost(s, i, reason), why)
  {
    var g := s.games[i];
    var v := Cut(s.wire, g.host.value, reason);
    MembersAreBelow(s, i);
    CutParts(s.wire, g.host.value, reason, why, s.accepted);
    DrainParts(v, None, g.clients, why, s.accepted);
    PartsOn(s.wire, v, Drain(v, None, g.clients), why, s.accepted);
    ClosePartings(s, i, Drain(v, None, g.clients), why);
  }

  // One client is taken off the list of game i, and cut off.
  lemma ClientLostPartings(s: Relay, i: nat, k: nat, reason: Text, why: Conn -> Text, t: Relay)
    requires Inv(s) && i < |s.games| && k < |s.games[i].clients| && why(s.games[i].clients[k].conn) == reason
    requires
      var g := s.games[i];
      t == s.(games := s.games[i := g.(clients := Without(g.clients, k))],
              wire := Expel(s.wire, g.host, g.clients[k], reason))
    ensures Partings(s, t, why)
  {
    MembersAreBelow(s, i);
    ExpelParts(s.wire, s.games[i].host, s.games[i].clients[k], reason, why, s.accepted);
    if SeatedOrShut(s) {
      forall c | c in t.seats && c !in t.wire.shut ensures Sits(t, c) {
        assert Sits(s, c);
        var j :| 0 <= j < |s.games| && SitsIn(s, s.games[j], c);
        if j == i && s.games[i].host != Some(c) { OtherClientSits(s.games[i], k, Peer(c, s.seats[c].id)); }
        assert SitsIn(t, t.games[j], c);
      }
    }
  }

  lemma OtherClientSits(g: Game, k: nat, p: Peer)
    requires k < |g.clients| && p in g.clients && p != g.clients[k]
    ensures p in Without(g.clients, k)
  {
    var m :| 0 <= m < |g.clients| && g.clients[m] == p;
    assert Without(g.clients, k)[if m < k then m else m - 1] == p;
  }

  lemma LossPartings(s: Relay, c: Conn, reason: Text, why: Conn -> Text)
    requires Inv(s) && forall d: Conn :: why(d) == if d == c then reason else Ascii("NORMAL")
    ensures Partings(s, Step(s, Lost(c, reason)), why)
  {
    var i := GameOf(s, c);
    if i < |s.games| {
      var g := s.games[i];
      var k := FindPeer(g.clients, c);
      if g.host == Some(c) {
        HostLostPartings(s, i, reason, why);
      } else if k < |g.clients| {
        ClientLostPartings(s, i, k, reason, why, Step(s, Lost(c, reason)));
      }
    }
  }

  lemma {:induction false} CloseAllPartings(s: Relay, why: Conn -> Text)
    requires Inv(s) && forall c: Conn :: why(c) == Ascii("NORMAL")
    ensures Partings(s, CloseAll(s), why) && CloseAll(s).accepted == s.accepted
    decreases |s.games|
  {
    if s.games != [] {
      ShutDownPartings(s, 0, why);
      ShutDownKeeps(s, 0);
      CloseAllPartings(ShutDown(s, 0), why);
      PartingsOn(s, ShutDown(s, 0), CloseAll(s), why);
    }
  }

  // Only the wire changes.
  lemma WirePartings(s: Relay, w: Wire, why: Conn -> Text)
    requires Parts(s.wire, w, why, s.accepted)
    ensures Partings(s, s.(wire := w), why)
  {
    var t := s.(wire := w);
    forall c | Sits(s, c) ensures Sits(t, c) {
      var i :| 0 <= i < |s.games| && SitsIn(s, s.games[i], c);
      assert SitsIn(t, t.games[i], c);
    }
  }

  lemma ForwardingPartings(s: Relay, e: Event, why: Conn -> Text)
    requires Forwarding(e) && (e.PingTimer? ==> why(e.conn) == Ascii("TIMEOUT"))
    ensures Partings(s, Step(s, e), why)
  {
    var i, n := GameOf(s, e.conn), s.accepted;
    match e {
      case PingTimer(c) =>
        if c < n && c !in s.wire.shut {
          if c in s.wire.waiting {
            CutParts(s.wire, c, TIMEOUT, why, n);
          } else {
            var number := ((LastNumber(s.wire, c) as int + 1) % 256) as byte;
            var w := s.wire.(waiting := s.wire.waiting + {c}, numbers := s.wire.numbers[c := number]);
            TellParts(w, Sent(c, Ping(number)), why, n);
          }
        }
      case PongFrom(c, _) => TellParts(s.wire.(waiting := s.wire.waiting - {c}), Ponged(c), why, n);
      case Upload(c, packet) =>
        TellParts(s.wire, NilHost(c), why, n);
        if c in s.seats && i < |s.games| && s.games[i].host.Some? {
          TellParts(s.wire, Sent(s.games[i].host.value, FromClient(s.seats[c].id, packet)), why, n);
        }
      case Multicast(c, ids, packet) =>
        if i < |s.games| { SendEachParts(s.wire, Destinations(s.games[i].clients, ids), FromHost(packet), why, n); }
      case AskRtt(c, measured) =>
        TellParts(s.wire, Sent(c, RttReply([], measured)), why, n);
        if i < |s.games| {
          TellParts(s.wire, Sent(c, RttReply(Members(s.games[i].host, s.games[i].clients), measured)), why, n);
        }
    }
    ForwardingIsQuiet(s, e);
    WirePartings(s, Step(s, e).wire, why);
  }

  lemma RefusalPartings(s: Relay, reason: Text, why: Conn -> Text)
    requires why(s.accepted) == reason
    ensures Partings(s, Refuse(s, reason), why)
  {
    var u := s.(accepted := s.accepted + 1);
    CutParts(s.wire, s.accepted, reason, why, s.accepted + 1);
    WirePartings(u, Cut(s.wire, s.accepted, reason), why);
    AcceptedSits(s, u);
  }

  lemma AcceptedSits(s: Relay, u: Relay)
    requires u.games == s.games && u.seats == s.seats && u.wire.shut == s.wire.shut
    ensures SeatedOrShut(u) <==> SeatedOrShut(s)
  {
    forall c ensures Sits(u, c) <==> Sits(s, c) {
      if Sits(s, c) {
        var i :| 0 <= i < |s.games| && SitsIn(s, s.games[i], c);
        assert SitsIn(u, u.games[i], c);
      }
      if Sits(u, c) {
        var i :| 0 <= i < |u.games| && SitsIn(u, u.games[i], c);
        assert SitsIn(s, s.games[i], c);
      }
    }
  }

  // The newcomer sits in game i, and everybody else sits where he sat.
  lemma ArrivalPartings(s: Relay, t: Relay, i: nat, why: Conn -> Text)
    requires Inv(s) && i < |s.games| && t.accepted == s.accepted + 1 && t.wire.shut == s.wire.shut
    requires Parts(s.wire, t.wire, why, t.accepted)
    requires |t.games| == |s.games| && forall j :: 0 <= j < |s.games| && j != i ==> t.games[j] == s.games[j]
    requires SitsIn(t, t.games[i], s.accepted) && t.seats.Keys == s.seats.Keys + {s.accepted}
    requires forall c :: c in s.seats ==> t.seats[c] == s.seats[c]
    requires s.games[i].host.Some? ==> t.games[i].host == s.games[i].host
    requires s.games[i].clients <= t.games[i].clients
    ensures Partings(s, t, why)
  {
    if SeatedOrShut(s) {
      forall c | c in t.seats && c !in t.wire.shut ensures Sits(t, c) {
        if c != s.accepted {
          assert Sits(s, c);
          var j :| 0 <= j < |s.games| && SitsIn(s, s.games[j], c);
          if j == i && s.games[i].host != Some(c) {
            var m :| 0 <= m < |s.games[i].clients| && s.games[i].clients[m] == Peer(c, s.seats[c].id);
            assert t.games[i].clients[m] == Peer(c, t.seats[c].id);
          }
          assert SitsIn(t, t.games[j], c);
        }
      }
    }
  }

  lemma HostPartings(s: Relay, i: nat, t: Relay, why: Conn -> Text)
    requires Inv(s) && i < |s.games| && s.games[i].host == None
    requires t == AddClient(s.(accepted := s.accepted + 1), i, s.accepted, 1, s.games[i].password)
    ensures Partings(s, t, why)
  {
    var g, n := s.games[i], t.accepted;
    var note := Connected(g.serial, g.name);
    TellParts(s.wire, note, why, n);
    TellParts(Tell(s.wire, note), Sent(s.accepted, Welcome(1, g.name)), why, n);
    PartsOn(s.wire, Tell(s.wire, note), t.wire, why, n);
    assert s.accepted !in s.seats;
    assert IdsOk(g);
    ArrivalPartings(s, t, i, why);
  }

  lemma ClientPartings(s: Relay, i: nat, t: Relay, why: Conn -> Text)
    requires Inv(s) && i < |s.games| && s.games[i].host.Some? && s.games[i].nextId < ID_LIMIT
    requires t == AddClient(s.(accepted := s.accepted + 1), i, s.accepted, s.games[i].version, [])
    ensures Partings(s, t, why)
  {
    var g, n := s.games[i], t.accepted;
    var note := Sent(g.host.value, ConnectClient(g.nextId));
    TellParts(s.wire, note, why, n);
    TellParts(Tell(s.wire, note), Sent(s.accepted, Welcome(g.version, g.name)), why, n);
    PartsOn(s.wire, Tell(s.wire, note), t.wire, why, n);
    assert s.accepted !in s.seats;
    assert t.games[i].clients[|g.clients|] == Peer(s.accepted, g.nextId);
    ArrivalPartings(s, t, i, why);
  }

  lemma {:induction false} GreetPartings(
    s: Relay, version: byte, name: Text, password: Text, t: Relay, why: Conn -> Text)
    requires Inv(s) && t == Greet(s, version, name, password) && HostedAtOne(s)
    requires why(s.accepted) == Why(s, Hello(version, name, password), s.accepted)
    ensures Partings(s, t, why)
  {
    var i := Find(s.games, name);
    if version == 1 && i < |s.games| && s.games[i].host == None && password == s.games[i].password {
      HostPartings(s, i, t, why);
    } else if version == 1 && i < |s.games| && s.games[i].host.Some? && s.games[i].nextId < ID_LIMIT {
      ClientPartings(s, i, t, why);
    } else {
      GreetRefused(s, version, name, password, t, i, why);
    }
  }

  lemma {:induction false} GreetRefused(
    s: Relay, version: byte, name: Text, password: Text, t: Relay, i: nat, why: Conn -> Text)
    requires Inv(s) && t == Greet(s, version, name, password) && HostedAtOne(s) && i == Find(s.games, name)
    requires why(s.accepted) == Why(s, Hello(version, name, password), s.accepted)
    requires version == 1 && i < |s.games| ==>
      if s.games[i].host == None then password != s.games[i].password else s.games[i].nextId >= ID_LIMIT
    ensures Partings(s, t, why)
  {
    WhyHello(s, version, name, password);
    GreetRefuses(s, version, name, password, i);
    RefusalPartings(s, why(s.accepted), why);
  }

  lemma GreetRefuses(s: Relay, version: byte, name: Text, password: Text, i: nat)
    requires i == Find(s.games, name) && HostedAtOne(s)
    requires version == 1 && i < |s.games| ==>
      if s.games[i].host == None then password != s.games[i].password else s.games[i].nextId >= ID_LIMIT
    ensures
      Greet(s, version, name, password) ==
      Refuse(s, if version != PROTOCOL_VERSION then WRONG_VERSION
                else if i == |s.games| then GAME_UNKNOWN
                else if s.games[i].host.Some? then NORMAL else NO_HOST)
  {
  }

  lemma WhyHello(s: Relay, version: byte, name: Text, password: Text)
    requires DistinctNames(s.games)
    ensures
      var i := Find(s.games, name);
      Why(s, Hello(version, name, password), s.accepted) ==
      if version != PROTOCOL_VERSION then WRONG_VERSION
      else if i == |s.games| then GAME_UNKNOWN
      else if s.games[i].host.Some? then NORMAL else NO_HOST
  {
    var i := Find(s.games, name);
    assert forall j :: 0 <= j < |s.games| && s.games[j].name == name ==> j == i;
  }

  // Whoever is a host has come with protocol version 1.
  ghost predicate HostedAtOne(s: Relay) {
    forall i :: 0 <= i < |s.games| && s.games[i].host.Some? ==> s.games[i].version == 1
  }

  lemma CreatePartings(s: Relay, name: Text, password: Text, why: Conn -> Text)
    ensures Partings(s, CreateGame(s, name, password), why)
  {
    var t := CreateGame(s, name, password);
    TellParts(s.wire, Created(s.created, name), why, s.accepted);
    forall c | Sits(s, c) ensures Sits(t, c) {
      var i :| 0 <= i < |s.games| && SitsIn(s, s.games[i], c);
      assert t.games[i] == s.games[i] && SitsIn(t, t.games[i], c);
    }
  }

  // The metaserver's orders, the timer and the end.
  lemma OrderPartings(s: Relay, e: Event, why: Conn -> Text)
    requires Inv(s) && (e.Create? || e.Remove? || e.HostTimer? || e.Halt?)
    requires forall c: Conn :: why(c) == Ascii("NORMAL")
    ensures Partings(s, Step(s, e), why)
  {
    match e
    case Create(name, password) => CreatePartings(s, name, password, why);
    case Remove(name) =>
      var i := Find(s.games, name);
      if i < |s.games| { ShutDownPartings(s, i, why); }
    case HostTimer(name) =>
      var i := Find(s.games, name);
      if i < |s.games| && s.games[i].host == None {
        assert IdsOk(s.games[i]);
        ClosePartings(s, i, s.wire, why);
      }
    case Halt => CloseAllPartings(s, why);
  }

  lemma {:induction false} StepPartings(s: Relay, e: Event, why: Conn -> Text)
    requires Inv(s) && HostedAtOne(s) && forall c: Conn :: why(c) == Why(s, e, c)
    ensures Partings(s, Step(s, e), why)
  {
    match e
    case Hello(version, name, password) => GreetPartings(s, version, name, password, Step(s, e), why);
    case Garbled =>
      RefusalPartings(s, PROTOCOL_VIOLATION, why);
      assert Step(s, e) == Refuse(s, PROTOCOL_VIOLATION);
    case Lost(c, reason) => LossPartings(s, c, reason, why);
    case _ => if Forwarding(e) { ForwardingPartings(s, e, why); } else { OrderPartings(s, e, why); }
  }

  lemma {:induction false} StepHosts(s: Relay, e: Event)
    requires HostedAtOne(s)
    ensures HostedAtOne(Step(s, e))
  {
    var t := Step(s, e);
    if !RelayTheorems.Newcomer(e) {
      RelayTheorems.StepSettles(s, e);
      forall j | 0 <= j < |t.games| && t.games[j].host.Some? ensures t.games[j].version == 1 {
        assert RelayTheorems.Was(s.games, t.games[j]);
        var i :| 0 <= i < |s.games| && RelayTheorems.Same(s.games[i], t.games[j]);
      }
    }
  }

  // ---------------------------------------------------------------- every run

  ghost predicate Told(s: Relay) {
    && SeatedOrShut(s) && HostedAtOne(s) && (forall c :: c in s.wire.shut ==> c < s.accepted)
    && (forall c: Conn :: |Goodbyes(s.wire.log, c)| == if c in s.wire.shut then 1 else 0)
  }

  lemma {:induction false} RunKeepsTold(es: seq<Event>)
    ensures Told(Run(es))
  {
    if es != [] {
      var s, e := Run(es[..|es| - 1]), es[|es| - 1];
      RunKeeps(es[..|es| - 1]);
      RunKeepsTold(es[..|es| - 1]);
      StepPartings(s, e, (c: Conn) => Why(s, e, c));
      StepHosts(s, e);
    }
  }

  // In every run a connection is closed exactly if it has been told so, and nobody is told twice; and whoever
  // was ever admitted to a game still sits in a listed game or has been told.
  lemma NobodyIsLeftBehind(es: seq<Event>, c: Conn)
    ensures
      var s := Run(es);
      && |Goodbyes(s.wire.log, c)| == (if c in s.wire.shut then 1 else 0)
      && (c in s.seats ==> |Goodbyes(s.wire.log, c)| == 1 || Sits(s, c))
  {
    RunKeepsTold(es);
  }

  // In every run, whoever a step cuts off has been told the reason of that step, and of no other.
  lemma GoodbyesSayWhy(es: seq<Event>, e: Event, c: Conn)
    ensures
      var s, t := Run(es), Step(Run(es), e);
      c in t.wire.shut && c !in s.wire.shut ==> Goodbyes(t.wire.log, c) == [Why(s, e, c)]
  {
    RunKeeps(es);
    RunKeepsTold(es);
    StepPartings(Run(es), e, (d: Conn) => Why(Run(es), e, d));
  }
}
