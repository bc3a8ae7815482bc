/** The relay's objects (wlnr/game.go, wlnr/server.go), proved to take the steps of RelayModel. */
module RelayServer {
  import opened GoText
  import opened RelayFraming
  import opened RelayInvariant
  import opened RelayInput
  import Search
  import M = RelayModel

  type Conn = M.Conn
  type Peer = M.Peer

  // The index of a game object in the list.
  function Position(games: seq<Game>, g: Game): (i: nat)
    ensures i <= |games| && (i < |games| ==> games[i] == g) && (i == |games| <==> g !in games)
    ensures forall j :: 0 <= j < i ==> games[j] != g
  {
    Search.First(games, (h: Game) => h == g)
  }

  // What the methods need of the state they start from, and every step keeps: different names,
  // members that have been accepted, a host that is not among its clients.
  ghost predicate TidyGame(g: M.Game, accepted: nat) {
    && (g.host == None ==> g.clients == [])
    && (g.host.Some? ==> g.host.value < accepted)
    && (forall k :: 0 <= k < |g.clients| ==> g.clients[k].conn < accepted && g.host != Some(g.clients[k].conn))
  }

  ghost predicate Tidy(s: M.Relay) {
    DistinctNames(s.games) && forall i :: 0 <= i < |s.games| ==> TidyGame(s.games[i], s.accepted)
  }

  lemma TidyWithout(s: M.Relay, i: nat, w: M.Wire)
    requires Tidy(s) && i < |s.games|
    ensures Tidy(M.Close(s, i, w))
  {
  }

  lemma TidyDrop(s: M.Relay, i: nat, c: Conn, reason: Text)
    requires Tidy(s) && i < |s.games|
    ensures Tidy(M.DropFrom(s, i, c, reason))
  {
    if s.games[i].host == Some(c) {
      TidyWithout(s, i, M.Drain(M.Cut(s.wire, c, reason), None, s.games[i].clients));
    }
  }

  lemma TidyCreate(s: M.Relay, name: Text, password: Text)
    requires Tidy(s)
    ensures Tidy(M.CreateGame(s, name, password))
  {
  }

  // One entry changes, everything else in the list stays.
  lemma TidyUpdate(s: M.Relay, i: nat, t: M.Relay)
    requires Tidy(s) && i < |s.games| == |t.games| && s.accepted <= t.accepted
    requires forall j :: 0 <= j < |s.games| && j != i ==> t.games[j] == s.games[j]
    requires t.games[i].name == s.games[i].name && TidyGame(t.games[i], t.accepted)
    ensures Tidy(t)
  {
  }

  lemma TidyGreet(s: M.Relay, version: byte, name: Text, password: Text)
    requires Tidy(s)
    ensures Tidy(M.Greet(s, version, name, password))
  {
    var t, i := M.Greet(s, version, name, password), M.Find(s.games, name);
    if i < |s.games| {
      assert TidyGame(s.games[i], s.accepted);
      TidyUpdate(s, i, t);
    }
  }

  lemma WithoutIsPart<T>(s: seq<T>, i: nat)
    requires i < |s|
    ensures forall x :: x in M.Without(s, i) ==> x in s
  {
  }

  lemma {:induction false} DestinationsGrow(clients: seq<Peer>, ids: seq<byte>, id: byte)
    ensures
      var k := M.FindId(clients, id);
      M.Destinations(clients, ids + [id]) ==
      M.Destinations(clients, ids) + if k < |clients| then [clients[k].conn] else []
  {
    if ids != [] {
      DestinationsGrow(clients, ids[1..], id);
      assert (ids + [id])[1..] == ids[1..] + [id];
    }
  }

  // Cutting the host's connection, if there is one.
  function CutHost(w: M.Wire, host: Option<Conn>, reason: Text): M.Wire {
    if host.Some? then M.Cut(w, host.value, reason) else w
  }

  class Game {
    const server: Server
    const serial: nat
    const gameName: Text
    const hostPassword: Text
    var host: Option<Conn>
    var clients: seq<Peer>
    var nextClientId: byte
    var protocolVersion: byte
    var currentlyShuttingDown: bool

    constructor (name: Text, password: Text, server: Server, serial: nat)
      ensures this.server == server && this.serial == serial && !currentlyShuttingDown
      ensures View() == M.Game(serial, name, password, 0, None, [], 2)
    {
      this.server, this.serial := server, serial;
      gameName, hostPassword := name, password;
      host, clients, nextClientId, protocolVersion := None, [], M.HOST_ID + 1, 0;
      currentlyShuttingDown := false;
    }

    ghost function View(): M.Game
      reads this
    {
      M.Game(serial, gameName, hostPassword, protocolVersion, host, clients, nextClientId)
    }

    // The host is never in the client list.
    ghost predicate HostApart()
      reads this
    {
      forall k :: 0 <= k < |clients| ==> host != Some(clients[k].conn)
    }

    // Disconnects everyone, clients first, and leaves the list. Does nothing when it is already at it.
    method Shutdown()
      requires HostApart() && (!currentlyShuttingDown ==> this in server.games)
      modifies `host, `clients, `currentlyShuttingDown, server`games, server`wire
      ensures currentlyShuttingDown
      ensures old(currentlyShuttingDown) ==>
        && host == old(host) && clients == old(clients)
        && server.games == old(server.games) && server.wire == old(server.wire)
      ensures !old(currentlyShuttingDown) ==>
        && host == None && clients == []
        && server.games == M.Without(old(server.games), Position(old(server.games), this))
        && server.wire == M.Tell(
             CutHost(M.Drain(old(server.wire), old(host), old(clients)), old(host), M.NORMAL),
             M.Closed(serial, gameName))
      decreases if currentlyShuttingDown then 0 else 1, 0
    {
      if currentlyShuttingDown {
        return;
      }
      currentlyShuttingDown := true;
      while |clients| > 0
        invariant currentlyShuttingDown && host == old(host) && HostApart()
        invariant server.games == old(server.games)
        invariant M.Drain(server.wire, host, clients) == M.Drain(old(server.wire), old(host), old(clients))
        decreases |clients|
      {
        assert M.FindPeer(clients, clients[0].conn) == 0;
        assert M.Without(clients, 0) == clients[1..];
        DisconnectClient(Some(clients[0].conn), M.NORMAL);
      }
      DisconnectClient(host, M.NORMAL);
      server.RemoveGameObject(this);
    }

    // Takes a member off the game; losing the host shuts the game down.
    method DisconnectClient(client: Option<Conn>, reason: Text)
      requires HostApart() && (host.Some? && !currentlyShuttingDown ==> this in server.games)
      modifies `host, `clients, `currentlyShuttingDown, server`games, server`wire
      ensures client == None ==>
        && host == old(host) && clients == old(clients) && currentlyShuttingDown == old(currentlyShuttingDown)
        && server.games == old(server.games) && server.wire == old(server.wire)
      ensures client.Some? && client == old(host) && old(currentlyShuttingDown) ==>
        && host == None && clients == old(clients) && currentlyShuttingDown
        && server.games == old(server.games) && server.wire == M.Cut(old(server.wire), client.value, reason)
      ensures client.Some? && client == old(host) && !old(currentlyShuttingDown) ==>
        && host == None && clients == [] && currentlyShuttingDown
        && server.games == M.Without(old(server.games), Position(old(server.games), this))
        && server.wire == M.Tell(
             M.Drain(M.Cut(old(server.wire), client.value, reason), None, old(clients)), M.Closed(serial, gameName))
      ensures client.Some? && client != old(host) ==>
        var k := M.FindPeer(old(clients), client.value);
        && host == old(host) && currentlyShuttingDown == old(currentlyShuttingDown) && server.games == old(server.games)
        && (k == |old(clients)| ==> clients == old(clients) && server.wire == old(server.wire))
        && (k < |old(clients)| ==>
              && clients == M.Without(old(clients), k)
              && server.wire == M.Expel(old(server.wire), host, old(clients)[k], reason))
      decreases if currentlyShuttingDown then 0 else 1, 1
    {
      if client == None {
        return;
      }
      if host == client {
        server.Disconnect(client.value, reason);
        host := None;
        Shutdown();
        return;
      }
      var k := 0;
      while k < |clients|
        invariant k <= |clients| && clients == old(clients) && host == old(host)
        invariant currentlyShuttingDown == old(currentlyShuttingDown)
        invariant server.games == old(server.games) && server.wire == old(server.wire)
        invariant forall j :: 0 <= j < k ==> clients[j].conn != client.value
      {
        if clients[k].conn == client.value {
          if host.Some? {
            server.SendCommand(host.value, Command.DisconnectClient(clients[k].id));
          }
          server.Disconnect(clients[k].conn, reason);
          clients := M.Without(clients, k);
          return;
        }
        k := k + 1;
      }
    }

    // Looks a client up by id.
    method GetClient(id: byte) returns (client: Option<Conn>)
      ensures
        var k := M.FindId(clients, id);
        client == if k < |clients| then Some(clients[k].conn) else None
    {
      for k := 0 to |clients|
        invariant forall j :: 0 <= j < k ==> clients[j].id != id
      {
        if clients[k].id == id {
          return Some(clients[k].conn);
        }
      }
      return None;
    }
  }

  class Server {
    var games: seq<Game>
    var created: nat
    var accepted: nat
    var seats: map<Conn, M.Seat>
    var wire: M.Wire

    constructor ()
      ensures Valid() && View() == M.START && fresh(games)
    {
      games, created, accepted, seats := [], 0, 0, map[];
      wire := M.Wire({}, [], {}, map[]);
      new;
      assert View() == M.START;
    }

    ghost function Views(): (v: seq<M.Game>)
      reads this, games
      ensures |v| == |games| && forall i :: 0 <= i < |games| ==> v[i] == games[i].View()
    {
      seq(|games|, i requires 0 <= i < |games| reads this, games => games[i].View())
    }

    ghost function View(): M.Relay
      reads this, games
    {
      M.Relay(Views(), created, accepted, seats, wire)
    }

    // The listed games are different objects of this server, and none is shutting down.
    ghost predicate Listing()
      reads this, games
    {
      && (forall i :: 0 <= i < |games| ==> games[i].server == this && !games[i].currentlyShuttingDown)
      && (forall i, j :: 0 <= i < j < |games| ==> games[i] != games[j])
    }

    ghost predicate Valid()
      reads this, games
    {
      Listing() && Tidy(View())
    }

    // A member of a listed game that is not its host is not its host's connection.
    lemma HostIsApart(i: nat)
      requires Valid() && i < |games|
      ensures games[i].HostApart() && Position(games, games[i]) == i
    {
      assert TidyGame(View().games[i], accepted);
    }

    // The first listed game of that name.
    method Lookup(name: Text) returns (i: nat)
      ensures i == M.Find(Views(), name)
    {
      for k := 0 to |games|
        invariant forall j :: 0 <= j < k ==> games[j].gameName != name
      {
        if games[k].gameName == name {
          FindAt(Views(), name, k);
          return k;
        }
      }
      i := |games|;
      FindAt(Views(), name, i);
    }

    method CreateGame(name: Text, password: Text) returns (ok: bool)
      requires Valid()
      modifies this
      ensures Valid() && (forall g :: g in games ==> g in old(games) || fresh(g))
      ensures View() == M.Step(old(View()), M.Create(name, password))
      ensures ok <==> M.Find(old(View()).games, name) == |old(View()).games|
    {
      var i := Lookup(name);
      if i < |games| {
        return false;
      }
      TidyCreate(View(), name, password);
      AppendGame(name, password);
      ok := true;
    }

    // NewGame and PushBack
    method AppendGame(name: Text, password: Text)
      requires Listing()
      modifies this
      ensures Listing() && |games| == |old(games)| + 1
      ensures games[..|old(games)|] == old(games) && fresh(games[|old(games)|])
      ensures View() == old(View()).(
        games := old(Views()) + [M.Game(old(created), name, password, 0, None, [], 2)], created := old(created) + 1,
        wire := M.Tell(old(wire), M.Created(old(created), name)))
    {
      ghost var before := Views();
      var game := new Game(name, password, this, created);
      games := games + [game];
      created := created + 1;
      wire := M.Tell(wire, M.Created(game.serial, name));
      assert Views() == before + [game.View()];
    }

    // The metaserver orders a game closed.
    method RemoveGame(name: Text) returns (ok: bool)
      requires Valid()
      modifies this, games
      ensures Valid() && (forall g :: g in games ==> g in old(games))
      ensures View() == M.Step(old(View()), M.Remove(name))
      ensures ok <==> M.Find(old(View()).games, name) < |old(View()).games|
    {
      var i := Lookup(name);
      if i == |games| {
        return false;
      }
      ShutdownAt(i);
      ok := true;
    }

    // Calls Shutdown on the i-th listed game.
    method ShutdownListed(i: nat)
      requires Listing() && i < |games| && games[i].HostApart() && Position(games, games[i]) == i
      modifies this, games[i]
      ensures Listing() && games == M.Without(old(games), i) && View() == M.ShutDown(old(View()), i)
    {
      ghost var before := Views();
      games[i].Shutdown();
      assert Views() == M.Without(before, i);
    }

    // Client.SendCommand
    method SendCommand(c: Conn, cmd: Command)
      modifies `wire
      ensures wire == M.Send(old(wire), c, cmd)
    {
      wire := wire.(log := wire.log + [M.Sent(c, cmd)]);
    }

    // Client.Disconnect: sends the reason once, then the connection counts as closed.
    method Disconnect(c: Conn, reason: Text)
      modifies `wire
      ensures wire == M.Cut(old(wire), c, reason)
    {
      if c in wire.shut {
        return;
      }
      SendCommand(c, Command.Disconnect(reason));
      wire := wire.(shut := wire.shut + {c});
    }

    // Tells the metaserver and drops the list entry, if there is one.
    method RemoveGameObject(game: Game)
      modifies `games, `wire
      ensures game in old(games) ==>
        && games == M.Without(old(games), Position(old(games), game))
        && wire == M.Tell(old(wire), M.Closed(game.serial, game.gameName))
      ensures game !in old(games) ==> games == old(games) && wire == old(wire)
    {
      for i := 0 to |games|
        invariant games == old(games) && wire == old(wire)
        invariant forall j :: 0 <= j < i ==> games[j] != game
      {
        if games[i] == game {
          assert Position(games, game) == i;
          wire := M.Tell(wire, M.Closed(game.serial, game.gameName));
          games := M.Without(games, i);
          return;
        }
      }
    }

    // game is the one c was admitted to. If it is no longer listed, nobody is left in it.
    ghost predicate Serves(game: Game, c: Conn)
      reads this, games, game
    {
      var i := M.GameOf(View(), c);
      && c in seats && game.server == this
      && (i < |games| ==> games[i] == game)
      && (i == |games| ==> game !in games && game.host == None && game.clients == [])
    }

    // Calls DisconnectClient on the i-th listed game.
    method DropListed(game: Game, ghost i: nat, c: Conn, reason: Text)
      requires Listing() && i < |games| && games[i] == game && game.HostApart() && Position(games, game) == i
      modifies this, game
      ensures Listing() && (games == old(games) || games == M.Without(old(games), i))
      ensures View() == M.DropFrom(old(View()), i, c, reason)
    {
      if game.host == Some(c) {
        DropHost(game, i, c, reason);
      } else {
        DropOther(game, i, c, reason);
      }
    }

    method DropHost(game: Game, ghost i: nat, c: Conn, reason: Text)
      requires Listing() && i < |games| && games[i] == game && game.HostApart() && Position(games, game) == i
      requires game.host == Some(c)
      modifies this, game
      ensures Listing() && games == M.Without(old(games), i) && View() == M.HostLost(old(View()), i, reason)
    {
      ghost var before := Views();
      game.DisconnectClient(Some(c), reason);
      assert Views() == M.Without(before, i);
    }

    method DropOther(game: Game, ghost i: nat, c: Conn, reason: Text)
      requires Listing() && i < |games| && games[i] == game && game.HostApart() && Position(games, game) == i
      requires game.host != Some(c)
      modifies this, game
      ensures Listing() && games == old(games) && View() == M.DropFrom(old(View()), i, c, reason)
    {
      ghost var before := Views();
      game.DisconnectClient(Some(c), reason);
      assert Views() == before[i := game.View()];
    }

    // Calls DisconnectClient on a game that has been closed.
    method DropUnlisted(game: Game, c: Conn, reason: Text)
      requires Valid() && game.server == this && game !in games && game.host == None && game.clients == []
      modifies this, game
      ensures Valid() && games == old(games) && View() == old(View())
    {
      ghost var before := Views();
      game.DisconnectClient(Some(c), reason);
      assert Views() == before;
    }

    // The connection of a member is lost: the call its message loop makes.
    method MemberLost(game: Game, c: Conn, reason: Text)
      requires Valid() && Serves(game, c)
      modifies this, games, game
      ensures Valid() && (forall g :: g in games ==> g in old(games))
      ensures View() == M.Step(old(View()), M.Lost(c, reason))
    {
      var listed := game in games;
      if listed {
        ghost var i := M.GameOf(View(), c);
        TidyDrop(View(), i, c, reason);
        HostIsApart(i);
        WithoutIsPart(games, i);
        DropListed(game, i, c, reason);
      } else {
        DropUnlisted(game, c, reason);
      }
    }

    // The timer set by NewGame looks its game up by name.
    method RemoveGameIfNoHostIsConnected(name: Text)
      requires Valid()
      modifies this
      ensures Valid() && (forall g :: g in games ==> g in old(games))
      ensures View() == M.Step(old(View()), M.HostTimer(name))
    {
      var i := FindHostless(name);
      if i < |games| {
        WithoutIsPart(games, i);
        TidyWithout(View(), i, wire);
        CloseListed(i);
      }
    }

    method CloseListed(i: nat)
      requires Listing() && i < |games|
      modifies this
      ensures games == M.Without(old(games), i) && Listing() && View() == M.Close(old(View()), i, old(wire))
    {
      ghost var before := Views();
      wire := M.Tell(wire, M.Closed(games[i].serial, games[i].gameName));
      games := M.Without(games, i);
      assert Views() == M.Without(before, i);
    }

    // Where the timer's loop stops: at the first game of that name without a host.
    method FindHostless(name: Text) returns (i: nat)
      requires DistinctNames(Views())
      ensures i == |games| || (i < |games| && i == M.Find(Views(), name) && games[i].host == None)
      ensures i == |games| ==> M.Find(Views(), name) == |games| || games[M.Find(Views(), name)].host != None
    {
      i := 0;
      while i < |games|
        invariant i <= |games|
        invariant forall j :: 0 <= j < i ==> !(games[j].gameName == name && games[j].host == None)
      {
        if games[i].gameName == name && games[i].host == None {
          FindIs(Views(), i);
          return;
        }
        i := i + 1;
      }
    }

    // The shutdown branch of mainLoop: every game removes itself.
    method ShutdownServer()
      requires Valid()
      modifies this, games
      ensures Valid() && games == [] && View() == M.Step(old(View()), M.Halt)
    {
      ghost var start, goal := games, M.CloseAll(View());
      while |games| > 0
        invariant Valid() && M.CloseAll(View()) == goal
        invariant forall g :: g in games ==> g in start
        decreases |games|
      {
        ghost var v := View();
        assert games[0] in start;
        ShutdownAt(0);
        assert M.CloseAll(M.ShutDown(v, 0)) == goal;
      }
    }

    method ShutdownAt(i: nat)
      requires Valid() && i < |games|
      modifies this, games[i]
      ensures Valid() && |games| < |old(games)| && (forall g :: g in games ==> g in old(games))
      ensures View() == M.ShutDown(old(View()), i)
    {
      ghost var v := View();
      TidyWithout(v, i, CutHost(M.Drain(v.wire, v.games[i].host, v.games[i].clients), v.games[i].host, M.NORMAL));
      HostIsApart(i);
      WithoutIsPart(games, i);
      ShutdownListed(i);
    }

    // A new connection is greeted, refused or routed to the first game of the name it gives.
    method DealWithNewConnection(reader: Reader)
      requires Valid()
      modifies this, games, reader
      ensures Valid() && games == old(games)
      ensures View() == M.Step(old(View()), Greeting(old(reader.unread)).0)
    {
      ghost var input := reader.unread;
      var hello := ReadHello(reader);
      match hello {
        case None => RefuseGarbled();
        case Some((version, name, password)) =>
          TidyGreet(View(), version, name, password);
          Greet(version, name, password);
      }
    }

    // The HELLO; the strings are read only when the version is the relay's.
    method ReadHello(reader: Reader) returns (hello: Option<(byte, Text, Text)>)
      modifies reader
      ensures
        Greeting(old(reader.unread)).0 ==
        match hello case None => M.Garbled case Some((version, name, password)) => M.Hello(version, name, password)
    {
      var cmd := reader.ReadUint8();
      if cmd == None || cmd.value != HELLO {
        return None;
      }
      var version := reader.ReadUint8();
      if version == None {
        return None;
      }
      if version.value != PROTOCOL_VERSION {
        return Some((version.value, [], []));
      }
      var name := reader.ReadString();
      if name == None {
        return None;
      }
      var password := reader.ReadString();
      if password == None {
        return None;
      }
      return Some((version.value, name.value, password.value));
    }

    method RefuseGarbled()
      requires Valid()
      modifies this
      ensures Valid() && games == old(games) && View() == M.Step(old(View()), M.Garbled)
    {
      var client := accepted;
      Accept();
      Refuse(client, M.PROTOCOL_VIOLATION);
    }

    method Greet(version: byte, name: Text, password: Text)
      requires Listing()
      modifies this, games
      ensures Listing() && games == old(games) && View() == M.Greet(old(View()), version, name, password)
    {
      var client := accepted;
      Accept();
      Route(client, version, name, password);
    }

    method Route(client: Conn, version: byte, name: Text, password: Text)
      requires Listing()
      modifies this, games
      ensures games == old(games) && Listing() && View() == M.Route(old(View()), client, version, name, password)
    {
      if version != PROTOCOL_VERSION {
        Refuse(client, M.WRONG_VERSION);
        return;
      }
      var i := Lookup(name);
      if i == |games| {
        Refuse(client, M.GAME_UNKNOWN);
        return;
      }
      AddClient(i, client, version, password);
    }

    method Accept()
      modifies `accepted
      ensures View() == old(View()).(accepted := old(accepted) + 1)
    {
      ghost var before := Views();
      accepted := accepted + 1;
      assert Views() == before;
    }

    method Refuse(c: Conn, reason: Text)
      modifies `wire
      ensures View() == old(View()).(wire := M.Cut(old(wire), c, reason))
    {
      ghost var before := Views();
      Disconnect(c, reason);
      assert Views() == before;
    }

    // Game.addClient
    method AddClient(i: nat, client: Conn, version: byte, password: Text)
      requires Listing() && i < |games|
      modifies this, games[i]
      ensures games == old(games) && Listing() && View() == M.AddClient(old(View()), i, client, version, password)
    {
      ghost var before := View();
      var game := games[i];
      if game.host == None {
        if password != game.hostPassword {
          Refuse(client, M.NO_HOST);
          return;
        }
        game.protocolVersion := version;
        game.host := Some(client);
        seats := seats[client := M.Seat(game.serial, M.HOST_ID)];
        wire := M.Tell(wire, M.Connected(game.serial, game.gameName));
      } else {
        if game.protocolVersion != version {
          Refuse(client, M.WRONG_VERSION);
          return;
        }
        if game.nextClientId >= M.ID_LIMIT {
          Refuse(client, M.NORMAL);
          return;
        }
        var id := game.nextClientId;
        game.nextClientId := id + 1;
        game.clients := game.clients + [M.Peer(client, id)];
        seats := seats[client := M.Seat(game.serial, id)];
        SendCommand(game.host.value, ConnectClient(id));
      }
      SendCommand(client, Welcome(game.protocolVersion, game.gameName));
      assert Views() == before.games[i := game.View()];
    }

    // The TO_CLIENTS branch of handleHostMessages once ids and packet have been read.
    method ForwardToClients(game: Game, ids: seq<byte>, packet: Text)
      requires Valid() && game in games && game.host.Some? && Serves(game, game.host.value)
      modifies `wire
      ensures Valid() && View() == M.Step(old(View()), M.Multicast(game.host.value, ids, packet))
    {
      ghost var before := View();
      var destinations := FindDestinations(game, ids);
      SendToAll(destinations, FromHost(packet));
      assert Views() == before.games;
    }

    // The TO_HOST branch of handleClientMessages once the packet has been read. When the game has been
    // closed in the meantime there is no host to send to.
    method ForwardToHost(game: Game, client: Peer, packet: Text)
      requires Valid() && Serves(game, client.conn) && seats[client.conn].id == client.id != M.HOST_ID
      modifies `wire
      ensures Valid() && View() == M.Step(old(View()), M.Upload(client.conn, packet))
    {
      ghost var before := View();
      if game.host == None {
        wire := M.Tell(wire, M.NilHost(client.conn));
      } else {
        SendCommand(game.host.value, FromClient(client.id, packet));
      }
      assert Views() == before.games;
    }

    // The host, if there is one, and the clients of a game, with what was measured for them.
    method CollectRtts(game: Game, measured: M.Measured) returns (rtts: seq<Rtt>)
      ensures rtts == M.Triples(M.Members(game.host, game.clients), measured)
    {
      ghost var members := M.Members(game.host, game.clients);
      rtts := [];
      if game.host.Some? {
        rtts := [M.RttOf(M.Peer(game.host.value, M.HOST_ID), measured)];
      }
      ghost var first := |rtts|;
      for k := 0 to |game.clients|
        invariant |rtts| == first + k && forall j :: 0 <= j < |rtts| ==> rtts[j] == M.RttOf(members[j], measured)
      {
        rtts := rtts + [M.RttOf(game.clients[k], measured)];
      }
    }

    // sendRTTs; a closed game has nobody to report.
    method SendRtts(game: Game, receiver: Conn, measured: M.Measured)
      requires Valid() && Serves(game, receiver)
      modifies `wire
      ensures Valid() && View() == M.Step(old(View()), M.AskRtt(receiver, measured))
    {
      ghost var before := View();
      var rtts := CollectRtts(game, measured);
      SendCommand(receiver, RttResponse((|rtts| % 256) as byte, rtts));
      assert Views() == before.games;
    }

    // One round of pingLoop: the next ping, or the end when the last one has not been answered.
    method PingTimer(c: Conn)
      requires Valid() && c < accepted
      modifies `wire
      ensures Valid() && View() == M.Step(old(View()), M.PingTimer(c))
    {
      ghost var before := Views();
      if c !in wire.shut {
        if c !in wire.waiting {
          var number := ((M.LastNumber(wire, c) as int + 1) % 256) as byte;
          wire := wire.(waiting := wire.waiting + {c}, numbers := wire.numbers[c := number]);
          SendCommand(c, Ping(number));
        } else {
          Disconnect(c, M.TIMEOUT);
        }
      }
      assert Views() == before;
    }

    method HandlePong(c: Conn, number: byte)
      requires Valid() && c in seats
      modifies `wire
      ensures Valid() && View() == M.Step(old(View()), M.PongFrom(c, number))
    {
      ghost var before := Views();
      wire := wire.(waiting := wire.waiting - {c});
      wire := M.Tell(wire, M.Ponged(c));
      assert Views() == before;
    }

    // ---------------------------------------------------------------- the message loops

    // What a client's next message is, read from its connection.
    method ReadClientMessage(reader: Reader) returns (m: Message)
      modifies reader
      ensures m == ClientMessage(old(reader.unread)).0
      ensures Last(m) || reader.unread == ClientMessage(old(reader.unread)).1
    {
      var command := reader.ReadUint8();
      if command == None {
        return EndOfInput;
      }
      if command.value == TO_HOST {
        var packet := reader.ReadPacket();
        m := if packet == None then Violation else ToHost(packet.value);
      } else {
        m := ReadOther(command.value, reader);
      }
    }

    // The commands clients and hosts have in common; one without a case in the switch is skipped.
    method ReadOther(command: byte, reader: Reader) returns (m: Message)
      modifies reader
      ensures
        m == if command == DISCONNECT then Leave
             else if command == PONG then (if old(reader.unread) == [] then Violation else Pong(old(reader.unread)[0]))
             else if command == RTT_REQUEST then AskRtts else Skipped(command)
      ensures Last(m) || reader.unread == if command == PONG then old(reader.unread)[1..] else old(reader.unread)
    {
      if command == DISCONNECT {
        var _ := reader.ReadString();
        m := Leave;
      } else if command == PONG {
        var number := reader.ReadUint8();
        m := if number == None then Violation else Pong(number.value);
      } else if command == RTT_REQUEST {
        m := AskRtts;
      } else {
        m := Skipped(command);
      }
    }

    method ReadHostMessage(reader: Reader) returns (m: Message)
      modifies reader
      ensures m == HostMessage(old(reader.unread)).0
      ensures Last(m) || reader.unread == HostMessage(old(reader.unread)).1
    {
      var command := reader.ReadUint8();
      if command == None {
        return EndOfInput;
      }
      if command.value == TO_CLIENTS {
        var ids := reader.ReadIds();
        if ids == None {
          return Violation;
        }
        var packet := reader.ReadPacket();
        m := if packet == None then Violation else ToClients(ids.value, packet.value);
      } else {
        m := ReadOther(command.value, reader);
      }
    }

    // What the message of c makes its game do.
    method Act(game: Game, c: Conn, m: Message, measured: M.Measured)
      requires Valid() && Serves(game, c)
      requires m.ToHost? ==> seats[c].id != M.HOST_ID
      requires m.ToClients? ==> game in games && game.host == Some(c)
      modifies this, games, game
      ensures Valid() && View() == After(old(View()), EventOf(c, m, measured))
    {
      match m {
        case ToHost(packet) => ForwardToHost(game, M.Peer(c, seats[c].id), packet);
        case ToClients(ids, packet) => ForwardToClients(game, ids, packet);
        case Leave => MemberLost(game, c, M.NORMAL);
        case EndOfInput => MemberLost(game, c, M.NORMAL);
        case Violation => MemberLost(game, c, M.PROTOCOL_VIOLATION);
        case AskRtts => SendRtts(game, c, measured);
        case Pong(number) => HandlePong(c, number);
        case Skipped(_) =>
      }
    }

    // One round of handleClientMessages.
    method ClientRound(game: Game, client: Peer, reader: Reader, measured: M.Measured) returns (done: bool)
      requires Valid() && Serves(game, client.conn) && seats[client.conn].id == client.id != M.HOST_ID
      modifies this, games, game, reader
      ensures
        var (m, rest) := ClientMessage(old(reader.unread));
        && Valid() && View() == After(old(View()), EventOf(client.conn, m, measured))
        && done == Last(m) && (!done ==> reader.unread == rest)
    {
      var m := ReadClientMessage(reader);
      done := Last(m);
      Act(game, client.conn, m, measured);
    }

    // One round of handleHostMessages; it ends when some other code has taken the host away.
    method HostRound(game: Game, reader: Reader, measured: M.Measured) returns (done: bool)
      requires Valid() && (game.host.Some? ==> game in games && Serves(game, game.host.value))
      modifies this, games, game, reader
      ensures old(game.host) == None ==> done && Valid() && View() == old(View())
      ensures old(game.host).Some? ==>
        var (m, rest) := HostMessage(old(reader.unread));
        && Valid() && View() == After(old(View()), EventOf(old(game.host).value, m, measured))
        && done == Last(m) && (!done ==> reader.unread == rest)
    {
      if game.host == None {
        return true;
      }
      done := HostTurn(game, game.host.value, reader, measured);
    }

    method HostTurn(game: Game, host: Conn, reader: Reader, measured: M.Measured) returns (done: bool)
      requires Valid() && game.host == Some(host) && game in games && Serves(game, host)
      modifies this, games, game, reader
      ensures
        var (m, rest) := HostMessage(old(reader.unread));
        && Valid() && View() == After(old(View()), EventOf(host, m, measured))
        && done == Last(m) && (!done ==> reader.unread == rest)
    {
      var m := ReadHostMessage(reader);
      done := Last(m);
      HostMessageIsNoUpload(old(reader.unread));
      Act(game, host, m, measured);
    }

    lemma HostMessageIsNoUpload(input: Text)
      ensures !HostMessage(input).0.ToHost?
    {
    }

    method FindDestinations(game: Game, ids: seq<byte>) returns (destinations: seq<Conn>)
      ensures destinations == M.Destinations(game.clients, ids)
    {
      destinations := [];
      for k := 0 to |ids|
        invariant destinations == M.Destinations(game.clients, ids[..k])
      {
        DestinationsGrow(game.clients, ids[..k], ids[k]);
        assert ids[..k + 1] == ids[..k] + [ids[k]];
        var client := game.GetClient(ids[k]);
        if client.Some? {
          destinations := destinations + [client.value];
        }
      }
      assert ids[..|ids|] == ids;
    }

    method SendToAll(to: seq<Conn>, cmd: Command)
      modifies `wire
      ensures wire == M.SendEach(old(wire), to, cmd)
    {
      assert to[0..] == to;
      for k := 0 to |to|
        invariant M.SendEach(wire, to[k..], cmd) == M.SendEach(old(wire), to, cmd)
      {
        assert to[k..][1..] == to[k + 1..];
        SendCommand(to[k], cmd);
      }
    }
  }
}
