/** The relay server (wlnr/game.go, wlnr/server.go) as a state machine on values. Every handler, RPC
    and timer callback is one atomic step; everything sent is appended to a log. */
module RelayModel {
  import opened GoText
  import opened RelayFraming
  import Search

  // A connection, named by the order in which it was accepted: the identity of a *Client.
  type Conn = nat

  const HOST_ID: byte := 1
  const ID_LIMIT: byte := 250

  const NORMAL := Ascii("NORMAL")
  const NO_HOST := Ascii("NO_HOST")
  const WRONG_VERSION := Ascii("WRONG_VERSION")
  const PROTOCOL_VIOLATION := Ascii("PROTOCOL_VIOLATION")
  const GAME_UNKNOWN := Ascii("GAME_UNKNOWN")
  const TIMEOUT := Ascii("TIMEOUT")

  datatype Peer = Peer(conn: Conn, id: byte)

  // Which game object a connection was admitted to, and Client.id.
  datatype Seat = Seat(serial: nat, id: byte)

  // A listed *Game; its serial number is its identity.
  datatype Game = Game(
    serial: nat, name: Text, password: Text, version: byte,
    host: Option<Conn>, clients: seq<Peer>, nextId: byte)

  datatype Note =
    | Created(serial: nat, name: Text)     // the metaserver's NewGame succeeded
    | Connected(serial: nat, name: Text)   // GameConnected sent to the metaserver
    | Closed(serial: nat, name: Text)      // GameClosed sent to the metaserver
    | Sent(to: Conn, cmd: Command)         // a command handed to a client
    | NilHost(from: Conn)                  // a packet forwarded while game.host is nil
    | Ponged(from: Conn)                   // a PONG has been handled

  // What leaves the relay, which connections have been closed by Disconnect, and of each connection
  // waitingForPong and lastSendPingSeq.
  datatype Wire = Wire(shut: set<Conn>, log: seq<Note>, waiting: set<Conn>, numbers: map<Conn, byte>)

  datatype Relay = Relay(games: seq<Game>, created: nat, accepted: nat, seats: map<Conn, Seat>, wire: Wire)

  datatype Event =
    | Create(name: Text, password: Text)                   // RPC from the metaserver
    | Remove(name: Text)                                   // RPC from the metaserver
    | HostTimer(name: Text)                                // 30 seconds after NewGame
    | Garbled                                              // a connection without a proper HELLO
    | Hello(version: byte, name: Text, password: Text)     // a new connection's HELLO
    | Lost(conn: Conn, reason: Text)                       // EOF, violation or DISCONNECT on a connection
    | PingTimer(conn: Conn)                                // the connection's ping timer goes off
    | PongFrom(conn: Conn, number: byte)                   // PONG from a member of a game
    | Upload(conn: Conn, packet: Text)                     // TO_HOST from a client
    | Multicast(conn: Conn, ids: seq<byte>, packet: Text)  // TO_CLIENTS from a host
    | AskRtt(conn: Conn, measured: Measured)
    | Halt                                                 // the server's shutdown loop

  // ---------------------------------------------------------------- sending

  function Tell(w: Wire, note: Note): Wire {
    w.(log := w.log + [note])
  }

  function Send(w: Wire, to: Conn, cmd: Command): Wire {
    Tell(w, Sent(to, cmd))
  }

  // Client.Disconnect
  function Cut(w: Wire, c: Conn, reason: Text): Wire {
    if c in w.shut then w else Send(w, c, Disconnect(reason)).(shut := w.shut + {c})
  }

  function LastNumber(w: Wire, c: Conn): byte {
    if c in w.numbers then w.numbers[c] else 0
  }

  // One round of pingLoop: the next ping, or the end when the last one has not been answered.
  function Tick(w: Wire, c: Conn): Wire {
    if c in w.shut then w
    else if c in w.waiting then Cut(w, c, TIMEOUT)
    else
      var number := ((LastNumber(w, c) as int + 1) % 256) as byte;
      Send(w.(waiting := w.waiting + {c}, numbers := w.numbers[c := number]), c, Ping(number))
  }

  // HandlePong: whatever its number, it is an answer.
  function HearPong(w: Wire, c: Conn): Wire {
    Tell(w.(waiting := w.waiting - {c}), Ponged(c))
  }

  // Taking a client off a game: the host, if any, is told first.
  function Expel(w: Wire, host: Option<Conn>, p: Peer, reason: Text): Wire {
    Cut(if host.Some? then Send(w, host.value, DisconnectClient(p.id)) else w, p.conn, reason)
  }

  function Drain(w: Wire, host: Option<Conn>, clients: seq<Peer>): Wire
    decreases |clients|
  {
    if clients == [] then w else Drain(Expel(w, host, clients[0], NORMAL), host, clients[1..])
  }

  // ---------------------------------------------------------------- lists

  function Find(games: seq<Game>, name: Text): (i: nat)
    ensures i <= |games| && (i < |games| ==> games[i].name == name)
    ensures forall j :: 0 <= j < i ==> games[j].name != name
  {
    Search.First(games, (g: Game) => g.name == name)
  }

  function FindSerial(games: seq<Game>, serial: nat): (i: nat)
    ensures i <= |games| && (i < |games| ==> games[i].serial == serial)
    ensures forall j :: 0 <= j < i ==> games[j].serial != serial
  {
    Search.First(games, (g: Game) => g.serial == serial)
  }

  function FindPeer(clients: seq<Peer>, c: Conn): (k: nat)
    ensures k <= |clients| && (k < |clients| ==> clients[k].conn == c)
    ensures forall j :: 0 <= j < k ==> clients[j].conn != c
  {
    Search.First(clients, (p: Peer) => p.conn == c)
  }

  function FindId(clients: seq<Peer>, id: byte): (k: nat)
    ensures k <= |clients| && (k < |clients| ==> clients[k].id == id)
    ensures forall j :: 0 <= j < k ==> clients[j].id != id
  {
    Search.First(clients, (p: Peer) => p.id == id)
  }

  // How often x occurs in s.
  function Tally<T(==)>(s: seq<T>, x: T): nat {
    if s == [] then 0 else (if s[0] == x then 1 else 0) + Tally(s[1..], x)
  }

  function Without<T>(s: seq<T>, i: nat): (r: seq<T>)
    requires i < |s|
    ensures |r| == |s| - 1
    ensures forall j :: 0 <= j < |r| ==> r[j] == if j < i then s[j] else s[j + 1]
  {
    s[..i] + s[i + 1..]
  }

  // ---------------------------------------------------------------- steps

  // The game leaves the list and the metaserver hears about it.
  function Close(s: Relay, i: nat, w: Wire): Relay
    requires i < |s.games|
  {
    s.(games := Without(s.games, i), wire := Tell(w, Closed(s.games[i].serial, s.games[i].name)))
  }

  // Game.Shutdown on a listed game: all clients, then the host, then the list entry.
  function ShutDown(s: Relay, i: nat): Relay
    requires i < |s.games|
  {
    var g := s.games[i];
    var w := Drain(s.wire, g.host, g.clients);
    Close(s, i, if g.host.Some? then Cut(w, g.host.value, NORMAL) else w)
  }

  // Game.DisconnectClient on the host: the clients go after it, and nobody is left to be told.
  function HostLost(s: Relay, i: nat, reason: Text): Relay
    requires i < |s.games| && s.games[i].host.Some?
  {
    var g := s.games[i];
    Close(s, i, Drain(Cut(s.wire, g.host.value, reason), None, g.clients))
  }

  // Game.DisconnectClient
  function DropFrom(s: Relay, i: nat, c: Conn, reason: Text): Relay
    requires i < |s.games|
  {
    var g := s.games[i];
    var k := FindPeer(g.clients, c);
    if g.host == Some(c) then HostLost(s, i, reason)
    else if k == |g.clients| then s
    else s.(games := s.games[i := g.(clients := Without(g.clients, k))],
            wire := Expel(s.wire, g.host, g.clients[k], reason))
  }

  // Game.addClient
  function AddClient(s: Relay, i: nat, c: Conn, version: byte, password: Text): Relay
    requires i < |s.games|
  {
    var g := s.games[i];
    if g.host == None then
      if password != g.password then s.(wire := Cut(s.wire, c, NO_HOST))
      else
        s.(games := s.games[i := g.(version := version, host := Some(c))],
           seats := s.seats[c := Seat(g.serial, HOST_ID)],
           wire := Send(Tell(s.wire, Connected(g.serial, g.name)), c, Welcome(version, g.name)))
    else if g.version != version then s.(wire := Cut(s.wire, c, WRONG_VERSION))
    else if g.nextId >= ID_LIMIT then s.(wire := Cut(s.wire, c, NORMAL))
    else
      s.(games := s.games[i := g.(clients := g.clients + [Peer(c, g.nextId)], nextId := g.nextId + 1)],
         seats := s.seats[c := Seat(g.serial, g.nextId)],
         wire := Send(Send(s.wire, g.host.value, ConnectClient(g.nextId)), c, Welcome(g.version, g.name)))
  }

  // Server.CreateGame
  function CreateGame(s: Relay, name: Text, password: Text): Relay {
    if Find(s.games, name) < |s.games| then s
    else
      s.(games := s.games + [Game(s.created, name, password, 0, None, [], HOST_ID + 1)],
         created := s.created + 1,
         wire := Tell(s.wire, Created(s.created, name)))
  }

  // Server.dealWithNewConnection once the HELLO has been read
  function Route(s: Relay, c: Conn, version: byte, name: Text, password: Text): Relay {
    var i := Find(s.games, name);
    if version != PROTOCOL_VERSION then s.(wire := Cut(s.wire, c, WRONG_VERSION))
    else if i == |s.games| then s.(wire := Cut(s.wire, c, GAME_UNKNOWN))
    else AddClient(s, i, c, version, password)
  }

  function Greet(s: Relay, version: byte, name: Text, password: Text): Relay {
    Route(s.(accepted := s.accepted + 1), s.accepted, version, name, password)
  }

  // Server.RemoveGameIfNoHostIsConnected: the first game of that name without a host.
  function HostDue(s: Relay, name: Text): Relay {
    var i := Find(s.games, name);
    if i < |s.games| && s.games[i].host == None then Close(s, i, s.wire) else s
  }

  function Destinations(clients: seq<Peer>, ids: seq<byte>): seq<Conn> {
    if ids == [] then []
    else
      var k := FindId(clients, ids[0]);
      (if k < |clients| then [clients[k].conn] else []) + Destinations(clients, ids[1..])
  }

  function SendEach(w: Wire, to: seq<Conn>, cmd: Command): Wire
    decreases |to|
  {
    if to == [] then w else SendEach(Send(w, to[0], cmd), to[1..], cmd)
  }

  // Milliseconds the last ping took, and seconds since the last pong.
  type Measured = map<Conn, (nat, nat)>

  // The triple addClientRTT appends; the measured values are the environment's.
  function RttOf(p: Peer, measured: Measured): Rtt {
    var (ms, sec) := if p.conn in measured then measured[p.conn] else (0, 0);
    Rtt(p.id, Clamp(ms), Clamp(sec))
  }

  function Triples(peers: seq<Peer>, measured: Measured): (r: seq<Rtt>)
    ensures |r| == |peers| && forall k :: 0 <= k < |r| ==> r[k].id == peers[k].id
  {
    seq(|peers|, k requires 0 <= k < |peers| => RttOf(peers[k], measured))
  }

  // Game.sendRTTs: the host, if there is one, and then the clients.
  function Members(host: Option<Conn>, clients: seq<Peer>): seq<Peer> {
    (if host.Some? then [Peer(host.value, HOST_ID)] else []) + clients
  }

  function RttReply(members: seq<Peer>, measured: Measured): Command {
    RttResponse((|members| % 256) as byte, Triples(members, measured))
  }

  // The list index of the game a connection was admitted to, if it is still listed.
  function GameOf(s: Relay, c: Conn): (i: nat)
    ensures i <= |s.games|
  {
    if c in s.seats then FindSerial(s.games, s.seats[c].serial) else |s.games|
  }

  // The server's shutdown loop: "Game removes itself".
  function CloseAll(s: Relay): Relay
    decreases |s.games|
  {
    if s.games == [] then s else CloseAll(ShutDown(s, 0))
  }

  function Step(s: Relay, e: Event): Relay {
    match e
    case Create(name, password) => CreateGame(s, name, password)
    case Remove(name) =>
      var i := Find(s.games, name);
      if i < |s.games| then ShutDown(s, i) else s
    case HostTimer(name) => HostDue(s, name)
    case Garbled => s.(accepted := s.accepted + 1, wire := Cut(s.wire, s.accepted, PROTOCOL_VIOLATION))
    case Hello(version, name, password) => Greet(s, version, name, password)
    case Lost(c, reason) =>
      var i := GameOf(s, c);
      if i < |s.games| then DropFrom(s, i, c, reason) else s
    case PingTimer(c) => if c < s.accepted then s.(wire := Tick(s.wire, c)) else s
    case PongFrom(c, _) => if c in s.seats then s.(wire := HearPong(s.wire, c)) else s
    case Upload(c, packet) =>
      var i := GameOf(s, c);
      if c !in s.seats || s.seats[c].id == HOST_ID then s
      else if i == |s.games| || s.games[i].host == None then s.(wire := Tell(s.wire, NilHost(c)))
      else s.(wire := Send(s.wire, s.games[i].host.value, FromClient(s.seats[c].id, packet)))
    case Multicast(c, ids, packet) =>
      var i := GameOf(s, c);
      if i == |s.games| || s.games[i].host != Some(c) then s
      else s.(wire := SendEach(s.wire, Destinations(s.games[i].clients, ids), FromHost(packet)))
    case AskRtt(c, measured) =>
      var i := GameOf(s, c);
      if c !in s.seats then s
      else if i == |s.games| then s.(wire := Send(s.wire, c, RttReply([], measured)))
      else s.(wire := Send(s.wire, c, RttReply(Members(s.games[i].host, s.games[i].clients), measured)))
    case Halt => CloseAll(s)
  }

  const START := Relay([], 0, 0, map[], Wire({}, [], {}, map[]))

  // The state after a run.
  function Run(es: seq<Event>): Relay {
    if es == [] then START else Step(Run(es[..|es| - 1]), es[|es| - 1])
  }

  // ---------------------------------------------------------------- reading the log

  // What the metaserver is entitled to believe about a name.
  datatype Phase = Absent | Waiting(serial: nat) | Hosted(serial: nat) | Broken

  function Advance(p: Phase, note: Note, name: Text): Phase {
    match note
    case Created(k, n) => if n != name then p else if p == Absent then Waiting(k) else Broken
    case Connected(k, n) => if n != name then p else if p == Waiting(k) then Hosted(k) else Broken
    case Closed(k, n) => if n != name then p else if p == Waiting(k) || p == Hosted(k) then Absent else Broken
    case _ => p
  }

  function PhaseOf(log: seq<Note>, name: Text): Phase {
    if log == [] then Absent else Advance(PhaseOf(log[..|log| - 1], name), log[|log| - 1], name)
  }

  // Who is connected, as a host learns it from the commands sent to it.
  function Learn(known: set<byte>, note: Note, c: Conn): set<byte> {
    match note
    case Sent(to, ConnectClient(id)) => if to == c then known + {id} else known
    case Sent(to, DisconnectClient(id)) => if to == c then known - {id} else known
    case _ => known
  }

  function Picture(log: seq<Note>, c: Conn): set<byte> {
    if log == [] then {} else Learn(Picture(log[..|log| - 1], c), log[|log| - 1], c)
  }

  function Ids(clients: seq<Peer>): set<byte> {
    set p | p in clients :: p.id
  }

  function Status(games: seq<Game>, name: Text): Phase {
    var i := Find(games, name);
    if i == |games| then Absent
    else if games[i].host.Some? then Hosted(games[i].serial)
    else Waiting(games[i].serial)
  }
}
