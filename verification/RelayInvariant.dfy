/** What every step of the relay keeps. */
module RelayInvariant {
  import opened GoText
  import opened RelayFraming
  import opened RelayModel

  // ---------------------------------------------------------------- the invariant

  ghost predicate IdsOk(g: Game) {
    && 2 <= g.nextId <= ID_LIMIT
    && (forall k :: 0 <= k < |g.clients| ==> 2 <= g.clients[k].id < g.nextId)
    && (forall j, k :: 0 <= j < k < |g.clients| ==> g.clients[j].id < g.clients[k].id)
    && (g.host == None ==> g.clients == [] && g.nextId == 2)
  }

  // Everyone in the game sits in it, under the id it is listed with.
  ghost predicate Seated(seats: map<Conn, Seat>, g: Game) {
    && (g.host.Some? ==> g.host.value in seats && seats[g.host.value] == Seat(g.serial, HOST_ID))
    && (forall k :: 0 <= k < |g.clients| ==>
         g.clients[k].conn in seats && seats[g.clients[k].conn] == Seat(g.serial, g.clients[k].id))
  }

  // A seat in a listed game was given after its host came, and below the next free id.
  ghost predicate SeatOk(seat: Seat, g: Game) {
    seat.serial == g.serial ==> g.host.Some? && seat.id < g.nextId
  }

  ghost predicate ListOk(s: Relay) {
    && (forall i :: 0 <= i < |s.games| ==> s.games[i].serial < s.created)
    && (forall i, j :: 0 <= i < j < |s.games| ==> s.games[i].serial != s.games[j].serial)
    && DistinctNames(s.games)
  }

  ghost predicate SeatsOk(s: Relay) {
    && (forall c :: c in s.seats ==> c < s.accepted && s.seats[c].serial < s.created && s.seats[c].id >= 1)
    && (forall c, d :: c in s.seats && d in s.seats && s.seats[c] == s.seats[d] ==> c == d)
    && (forall i, c :: 0 <= i < |s.games| && c in s.seats ==> SeatOk(s.seats[c], s.games[i]))
  }

  ghost predicate GamesOk(s: Relay) {
    forall i :: 0 <= i < |s.games| ==> IdsOk(s.games[i]) && Seated(s.seats, s.games[i])
  }

  // The metaserver's picture: the log tells, for every name, how the game list stands.
  ghost predicate TraceOk(s: Relay) {
    forall n :: PhaseOf(s.wire.log, n) == Status(s.games, n)
  }

  // The hosts' picture: the log tells every host which ids are connected.
  ghost predicate PicturesOk(s: Relay) {
    && (forall i :: 0 <= i < |s.games| && s.games[i].host.Some? ==>
         Picture(s.wire.log, s.games[i].host.value) == Ids(s.games[i].clients))
    && (forall c :: c !in s.seats ==> Picture(s.wire.log, c) == {})
  }

  ghost predicate Inv(s: Relay) {
    ListOk(s) && SeatsOk(s) && GamesOk(s) && TraceOk(s) && PicturesOk(s)
  }

  // ---------------------------------------------------------------- the log, one note at a time

  lemma Told(w: Wire, note: Note)
    ensures forall n :: PhaseOf(Tell(w, note).log, n) == Advance(PhaseOf(w.log, n), note, n)
    ensures forall c :: Picture(Tell(w, note).log, c) == Learn(Picture(w.log, c), note, c)
  {
    assert Tell(w, note).log[..|w.log|] == w.log;
  }

  // Nobody's picture of the relay changes.
  ghost predicate Quiet(w: Wire, v: Wire) {
    && (forall n :: PhaseOf(v.log, n) == PhaseOf(w.log, n))
    && (forall c :: Picture(v.log, c) == Picture(w.log, c))
  }

  ghost predicate Plain(note: Note) {
    note.NilHost? || note.Ponged? || (note.Sent? && !note.cmd.ConnectClient? && !note.cmd.DisconnectClient?)
  }

  lemma PlainIsQuiet(w: Wire, note: Note)
    requires Plain(note)
    ensures Quiet(w, Tell(w, note))
  {
    Told(w, note);
  }

  lemma CutIsQuiet(w: Wire, c: Conn, reason: Text)
    ensures Quiet(w, Cut(w, c, reason))
  {
    PlainIsQuiet(w, Sent(c, Disconnect(reason)));
  }

  lemma TickIsQuiet(w: Wire, c: Conn)
    ensures Quiet(w, Tick(w, c))
  {
    if c !in w.shut {
      if c in w.waiting {
        CutIsQuiet(w, c, TIMEOUT);
      } else {
        var number := ((LastNumber(w, c) as int + 1) % 256) as byte;
        PlainIsQuiet(w.(waiting := w.waiting + {c}, numbers := w.numbers[c := number]), Sent(c, Ping(number)));
      }
    }
  }

  lemma {:induction false} SendEachIsQuiet(w: Wire, to: seq<Conn>, cmd: Command)
    requires !cmd.ConnectClient? && !cmd.DisconnectClient?
    ensures Quiet(w, SendEach(w, to, cmd))
    decreases |to|
  {
    if to != [] {
      PlainIsQuiet(w, Sent(to[0], cmd));
      SendEachIsQuiet(Send(w, to[0], cmd), to[1..], cmd);
    }
  }

  // Only the host's picture changes: it loses the given ids.
  ghost predicate Loses(w: Wire, v: Wire, host: Option<Conn>, ids: set<byte>) {
    && (forall n :: PhaseOf(v.log, n) == PhaseOf(w.log, n))
    && (forall c: Conn :: Picture(v.log, c) ==
         if host == Some(c) then Picture(w.log, c) - ids else Picture(w.log, c))
  }

  lemma ExpelLoses(w: Wire, host: Option<Conn>, p: Peer, reason: Text)
    ensures Loses(w, Expel(w, host, p, reason), host, {p.id})
  {
    if host.Some? {
      var v := Send(w, host.value, DisconnectClient(p.id));
      Told(w, Sent(host.value, DisconnectClient(p.id)));
      CutIsQuiet(v, p.conn, reason);
    } else {
      CutIsQuiet(w, p.conn, reason);
    }
  }

  lemma {:induction false} DrainLoses(w: Wire, host: Option<Conn>, clients: seq<Peer>)
    ensures Loses(w, Drain(w, host, clients), host, Ids(clients))
    decreases |clients|
  {
    if clients != [] {
      ExpelLoses(w, host, clients[0], NORMAL);
      DrainLoses(Expel(w, host, clients[0], NORMAL), host, clients[1..]);
      assert clients == [clients[0]] + clients[1..];
      assert Ids(clients) == {clients[0].id} + Ids(clients[1..]);
    }
  }

  // ---------------------------------------------------------------- the list

  ghost predicate DistinctNames(games: seq<Game>) {
    forall j, k :: 0 <= j < k < |games| ==> games[j].name != games[k].name
  }

  lemma FindAt(games: seq<Game>, n: Text, i: nat)
    requires i <= |games| && (i < |games| ==> games[i].name == n)
    requires forall j :: 0 <= j < i ==> games[j].name != n
    ensures Find(games, n) == i
  {
    var f := Find(games, n);
    assert !(f < i) && !(i < f);
  }

  lemma FindIs(games: seq<Game>, i: nat)
    requires i < |games| && DistinctNames(games)
    ensures Find(games, games[i].name) == i
  {
    FindAt(games, games[i].name, i);
  }

  lemma StatusOfUpdate(games: seq<Game>, i: nat, g: Game, n: Text)
    requires i < |games| && g.name == games[i].name && g.serial == games[i].serial
    ensures g.host.Some? == games[i].host.Some? || n != g.name ==> Status(games[i := g], n) == Status(games, n)
    ensures DistinctNames(games) && g.host.Some? ==> Status(games[i := g], g.name) == Hosted(g.serial)
  {
    var other := games[i := g];
    FindAt(other, n, Find(games, n));
    if DistinctNames(games) {
      FindIs(games, i);
      FindAt(other, g.name, i);
    }
  }

  lemma StatusWithout(games: seq<Game>, i: nat, n: Text)
    requires i < |games| && DistinctNames(games)
    ensures Status(Without(games, i), n) == if n == games[i].name then Absent else Status(games, n)
  {
    var rest, f := Without(games, i), Find(games, n);
    if n == games[i].name {
      FindAt(rest, n, |rest|);
    } else {
      FindAt(rest, n, if f < i then f else f - 1);
    }
  }

  lemma {:induction false} StatusOfAppend(games: seq<Game>, g: Game, n: Text)
    requires Find(games, g.name) == |games| && g.host == None
    ensures Status(games + [g], n) == if n == g.name then Waiting(g.serial) else Status(games, n)
  {
    var more, f := games + [g], Find(games, n);
    var m := if f < |games| || n == g.name then f else |more|;
    assert forall j :: 0 <= j < |games| ==> more[j] == games[j];
    FindAt(more, n, m);
    assert f < |games| ==> more[m] == games[f];
  }

  // ---------------------------------------------------------------- steps

  lemma QuietKeeps(s: Relay, w: Wire)
    requires Inv(s) && Quiet(s.wire, w)
    ensures Inv(s.(wire := w))
  {
  }

  lemma AcceptKeeps(s: Relay)
    requires Inv(s)
    ensures Inv(s.(accepted := s.accepted + 1))
  {
  }

  lemma CloseKeepsList(s: Relay, i: nat, w: Wire)
    requires ListOk(s) && i < |s.games|
    ensures ListOk(Close(s, i, w))
  {
  }

  lemma CloseKeepsGames(s: Relay, i: nat, w: Wire)
    requires SeatsOk(s) && GamesOk(s) && i < |s.games|
    ensures var t := Close(s, i, w); SeatsOk(t) && GamesOk(t)
  {
    var t := Close(s, i, w);
    forall j | 0 <= j < |t.games| ensures IdsOk(t.games[j]) && Seated(t.seats, t.games[j]) {
      assert t.games[j] == s.games[if j < i then j else j + 1];
    }
    forall j, c | 0 <= j < |t.games| && c in t.seats ensures SeatOk(t.seats[c], t.games[j]) {
      assert t.games[j] == s.games[if j < i then j else j + 1];
    }
  }

  lemma CloseKeepsTrace(s: Relay, i: nat, w: Wire, n: Text)
    requires Inv(s) && i < |s.games| && PhaseOf(w.log, n) == PhaseOf(s.wire.log, n)
    ensures PhaseOf(Close(s, i, w).wire.log, n) == Status(Close(s, i, w).games, n)
  {
    Told(w, Closed(s.games[i].serial, s.games[i].name));
    StatusWithout(s.games, i, n);
    FindIs(s.games, i);
  }

  lemma CloseKeepsPictures(s: Relay, i: nat, w: Wire, ids: set<byte>)
    requires Inv(s) && i < |s.games| && Loses(s.wire, w, s.games[i].host, ids)
    ensures PicturesOk(Close(s, i, w))
  {
    var t := Close(s, i, w);
    Told(w, Closed(s.games[i].serial, s.games[i].name));
    forall j | 0 <= j < |t.games| && t.games[j].host.Some?
      ensures Picture(t.wire.log, t.games[j].host.value) == Ids(t.games[j].clients)
    {
      var j' := if j < i then j else j + 1;
      assert t.games[j] == s.games[j'] && s.games[j'].serial != s.games[i].serial;
    }
  }

  // Closing a game is safe whatever was told to its own host on the way.
  lemma {:induction false} CloseKeeps(s: Relay, i: nat, w: Wire, ids: set<byte>)
    requires Inv(s) && i < |s.games| && Loses(s.wire, w, s.games[i].host, ids)
    ensures Inv(Close(s, i, w))
  {
    CloseKeepsList(s, i, w);
    CloseKeepsGames(s, i, w);
    forall n ensures PhaseOf(Close(s, i, w).wire.log, n) == Status(Close(s, i, w).games, n) {
      CloseKeepsTrace(s, i, w, n);
    }
    CloseKeepsPictures(s, i, w, ids);
  }

  lemma {:induction false} ShutDownKeeps(s: Relay, i: nat)
    requires Inv(s) && i < |s.games|
    ensures Inv(ShutDown(s, i))
  {
    var g := s.games[i];
    DrainLoses(s.wire, g.host, g.clients);
    var w := Drain(s.wire, g.host, g.clients);
    if g.host.Some? {
      CutIsQuiet(w, g.host.value, NORMAL);
      CloseKeeps(s, i, Cut(w, g.host.value, NORMAL), Ids(g.clients));
    } else {
      CloseKeeps(s, i, w, Ids(g.clients));
    }
  }

  lemma HostLostKeeps(s: Relay, i: nat, reason: Text)
    requires Inv(s) && i < |s.games| && s.games[i].host.Some?
    ensures Inv(HostLost(s, i, reason))
  {
    var g := s.games[i];
    var w := Cut(s.wire, g.host.value, reason);
    CutIsQuiet(s.wire, g.host.value, reason);
    DrainLoses(w, None, g.clients);
    CloseKeeps(s, i, Drain(w, None, g.clients), {});
  }

  // One entry of the list changes; its name, serial and host do not.
  ghost predicate SameGame(g: Game, h: Game) {
    g.name == h.name && g.serial == h.serial && g.host == h.host && g.host.Some?
  }

  // The other hosts' pictures are not touched.
  lemma UpdateKeepsPictures(s: Relay, i: nat, g: Game, w: Wire)
    requires Inv(s) && i < |s.games| && SameGame(s.games[i], g)
    requires Picture(w.log, g.host.value) == Ids(g.clients)
    requires forall c: Conn :: g.host != Some(c) ==> Picture(w.log, c) == Picture(s.wire.log, c)
    ensures PicturesOk(s.(games := s.games[i := g], wire := w))
  {
    var t := s.(games := s.games[i := g], wire := w);
    forall j | 0 <= j < |t.games| && t.games[j].host.Some?
      ensures Picture(w.log, t.games[j].host.value) == Ids(t.games[j].clients)
    {
      if j != i {
        assert t.games[j] == s.games[j] && s.games[j].serial != s.games[i].serial;
      }
    }
  }

  lemma UpdateKeepsTrace(s: Relay, i: nat, g: Game, w: Wire)
    requires Inv(s) && i < |s.games| && SameGame(s.games[i], g)
    requires forall n :: PhaseOf(w.log, n) == PhaseOf(s.wire.log, n)
    ensures TraceOk(s.(games := s.games[i := g], wire := w))
  {
    forall n ensures PhaseOf(w.log, n) == Status(s.games[i := g], n) {
      StatusOfUpdate(s.games, i, g, n);
    }
  }

  lemma ShrinkKeeps(s: Relay, i: nat, g: Game, w: Wire)
    requires Inv(s) && i < |s.games| && SameGame(s.games[i], g) && g.nextId == s.games[i].nextId
    requires IdsOk(g) && Seated(s.seats, g)
    requires Loses(s.wire, w, g.host, Ids(s.games[i].clients) - Ids(g.clients))
    requires Ids(g.clients) <= Ids(s.games[i].clients)
    ensures Inv(s.(games := s.games[i := g], wire := w))
  {
    UpdateKeepsPictures(s, i, g, w);
    UpdateKeepsTrace(s, i, g, w);
  }

  lemma IdsOkWithout(g: Game, k: nat)
    requires IdsOk(g) && k < |g.clients|
    ensures IdsOk(g.(clients := Without(g.clients, k)))
  {
  }

  lemma IdsWithout(clients: seq<Peer>, k: nat)
    requires k < |clients|
    requires forall j :: 0 <= j < |clients| && j != k ==> clients[j].id != clients[k].id
    ensures Ids(Without(clients, k)) == Ids(clients) - {clients[k].id}
  {
    var p, rest := clients[k], Without(clients, k);
    assert clients == clients[..k] + [p] + clients[k + 1..];
    assert forall q :: q in clients <==> q == p || q in rest;
  }

  lemma DropClientKeeps(s: Relay, i: nat, k: nat, reason: Text)
    requires Inv(s) && i < |s.games| && k < |s.games[i].clients|
    ensures
      var g := s.games[i];
      Inv(s.(games := s.games[i := g.(clients := Without(g.clients, k))],
             wire := Expel(s.wire, g.host, g.clients[k], reason)))
  {
    var g := s.games[i];
    IdsOkWithout(g, k);
    IdsWithout(g.clients, k);
    ExpelLoses(s.wire, g.host, g.clients[k], reason);
    assert g.clients[k].id in Ids(g.clients);
    assert Ids(g.clients) - (Ids(g.clients) - {g.clients[k].id}) == {g.clients[k].id};
    ShrinkKeeps(s, i, g.(clients := Without(g.clients, k)), Expel(s.wire, g.host, g.clients[k], reason));
  }

  lemma {:induction false} DropKeeps(s: Relay, i: nat, c: Conn, reason: Text)
    requires Inv(s) && i < |s.games|
    ensures Inv(DropFrom(s, i, c, reason))
  {
    var g := s.games[i];
    var k := FindPeer(g.clients, c);
    if g.host == Some(c) {
      HostLostKeeps(s, i, reason);
    } else if k < |g.clients| {
      DropClientKeeps(s, i, k, reason);
    }
  }

  lemma CreateKeepsTrace(s: Relay, name: Text, password: Text, n: Text)
    requires TraceOk(s) && Find(s.games, name) == |s.games|
    ensures var t := CreateGame(s, name, password); PhaseOf(t.wire.log, n) == Status(t.games, n)
  {
    Told(s.wire, Created(s.created, name));
    StatusOfAppend(s.games, CreateGame(s, name, password).games[|s.games|], n);
  }

  lemma CreateKeepsLists(s: Relay, name: Text, password: Text)
    requires Inv(s) && Find(s.games, name) == |s.games|
    ensures var t := CreateGame(s, name, password); ListOk(t) && SeatsOk(t) && GamesOk(t)
  {
    var t := CreateGame(s, name, password);
    AppendKeeps(s, t.games[|s.games|], t);
  }

  lemma AppendKeeps(s: Relay, g: Game, t: Relay)
    requires ListOk(s) && SeatsOk(s) && GamesOk(s)
    requires g == Game(s.created, g.name, g.password, 0, None, [], 2)
    requires forall j :: 0 <= j < |s.games| ==> s.games[j].name != g.name
    requires t == s.(games := s.games + [g], created := s.created + 1, wire := t.wire)
    ensures ListOk(t) && SeatsOk(t) && GamesOk(t)
  {
    forall j | 0 <= j < |t.games| ensures IdsOk(t.games[j]) && Seated(t.seats, t.games[j]) {
      assert j < |s.games| ==> t.games[j] == s.games[j];
    }
    forall j, c | 0 <= j < |t.games| && c in t.seats ensures SeatOk(t.seats[c], t.games[j]) {
      assert j < |s.games| ==> t.games[j] == s.games[j];
    }
  }

  lemma CreateKeeps(s: Relay, name: Text, password: Text)
    requires Inv(s)
    ensures Inv(CreateGame(s, name, password))
  {
    if Find(s.games, name) == |s.games| {
      CreateKeepsLists(s, name, password);
      Told(s.wire, Created(s.created, name));
      forall n { CreateKeepsTrace(s, name, password, n); }
    }
  }

  // ---------------------------------------------------------------- a new connection

  // A seat for the newcomer in game i, whose entry becomes g.
  ghost function Sit(s: Relay, i: nat, g: Game, id: byte, w: Wire): Relay
    requires i < |s.games|
  {
    Relay(s.games[i := g], s.created, s.accepted + 1, s.seats[s.accepted := Seat(g.serial, id)], w)
  }

  ghost predicate MaySit(s: Relay, i: nat, g: Game, id: byte) {
    && i < |s.games| && g.name == s.games[i].name && g.serial == s.games[i].serial
    && IdsOk(g) && g.host.Some? && 1 <= id < g.nextId && s.games[i].nextId <= g.nextId
    && (forall c :: c in s.seats ==> s.seats[c] != Seat(g.serial, id))
    && Seated(s.seats[s.accepted := Seat(g.serial, id)], g)
  }

  lemma SitKeepsSeats(s: Relay, i: nat, g: Game, id: byte, w: Wire)
    requires ListOk(s) && SeatsOk(s) && MaySit(s, i, g, id)
    ensures var t := Sit(s, i, g, id, w); ListOk(t) && SeatsOk(t)
  {
    var t := Sit(s, i, g, id, w);
    assert forall j :: 0 <= j < |s.games| && j != i ==> t.games[j] == s.games[j] && s.games[j].serial != g.serial;
  }

  lemma SitKeepsGames(s: Relay, i: nat, g: Game, id: byte, w: Wire)
    requires SeatsOk(s) && GamesOk(s) && MaySit(s, i, g, id)
    ensures GamesOk(Sit(s, i, g, id, w))
  {
    var t := Sit(s, i, g, id, w);
    assert s.accepted !in s.seats;
    forall j | 0 <= j < |t.games| ensures IdsOk(t.games[j]) && Seated(t.seats, t.games[j]) {
      if j != i {
        assert t.games[j] == s.games[j];
      }
    }
  }

  lemma HostArrivesTrace(s: Relay, i: nat, version: byte, t: Relay)
    requires Inv(s) && i < |s.games| && s.games[i].host == None
    requires t == AddClient(s.(accepted := s.accepted + 1), i, s.accepted, version, s.games[i].password)
    ensures TraceOk(t) && PicturesOk(t)
  {
    var c, g := s.accepted, s.games[i];
    var note := Connected(g.serial, g.name);
    Told(s.wire, note);
    PlainIsQuiet(Tell(s.wire, note), Sent(c, Welcome(version, g.name)));
    forall n ensures PhaseOf(t.wire.log, n) == Status(t.games, n) {
      StatusOfUpdate(s.games, i, t.games[i], n);
      FindIs(s.games, i);
    }
    assert Ids(t.games[i].clients) == {};
    assert forall j :: 0 <= j < |s.games| && j != i ==> t.games[j] == s.games[j];
  }

  lemma {:induction false} ClientArrivesTrace(s: Relay, i: nat, t: Relay)
    requires Inv(s) && i < |s.games| && s.games[i].host.Some? && s.games[i].nextId < ID_LIMIT
    requires t == AddClient(s.(accepted := s.accepted + 1), i, s.accepted, s.games[i].version, [])
    ensures TraceOk(t) && PicturesOk(t)
  {
    var c, g := s.accepted, s.games[i];
    var host, id := g.host.value, g.nextId;
    Told(s.wire, Sent(host, ConnectClient(id)));
    PlainIsQuiet(Send(s.wire, host, ConnectClient(id)), Sent(c, Welcome(g.version, g.name)));
    assert Ids(t.games[i].clients) == Ids(g.clients) + {id};
    UpdateKeepsTrace(s, i, t.games[i], t.wire);
    UpdateKeepsPictures(s, i, t.games[i], t.wire);
  }

  lemma HostArrives(s: Relay, i: nat, version: byte, t: Relay)
    requires Inv(s) && i < |s.games| && s.games[i].host == None
    requires t == AddClient(s.(accepted := s.accepted + 1), i, s.accepted, version, s.games[i].password)
    ensures Inv(t)
  {
    SitKeepsSeats(s, i, t.games[i], HOST_ID, t.wire);
    SitKeepsGames(s, i, t.games[i], HOST_ID, t.wire);
    HostArrivesTrace(s, i, version, t);
  }

  lemma ClientArrives(s: Relay, i: nat, t: Relay)
    requires Inv(s) && i < |s.games| && s.games[i].host.Some? && s.games[i].nextId < ID_LIMIT
    requires t == AddClient(s.(accepted := s.accepted + 1), i, s.accepted, s.games[i].version, [])
    ensures Inv(t)
  {
    SitKeepsSeats(s, i, t.games[i], s.games[i].nextId, t.wire);
    SitKeepsGames(s, i, t.games[i], s.games[i].nextId, t.wire);
    ClientArrivesTrace(s, i, t);
  }

  function Refuse(s: Relay, reason: Text): Relay {
    s.(accepted := s.accepted + 1, wire := Cut(s.wire, s.accepted, reason))
  }

  lemma RefusalKeeps(s: Relay, reason: Text)
    requires Inv(s)
    ensures Inv(Refuse(s, reason))
  {
    AcceptKeeps(s);
    CutIsQuiet(s.wire, s.accepted, reason);
    QuietKeeps(s.(accepted := s.accepted + 1), Cut(s.wire, s.accepted, reason));
  }

  lemma AdmitKeeps(s: Relay, i: nat, version: byte, password: Text, t: Relay)
    requires Inv(s) && i < |s.games|
    requires t == AddClient(s.(accepted := s.accepted + 1), i, s.accepted, version, password)
    ensures Inv(t)
  {
    var g := s.games[i];
    if g.host == None && password == g.password {
      HostArrives(s, i, version, t);
    } else if g.host.Some? && g.version == version && g.nextId < ID_LIMIT {
      ClientArrives(s, i, t);
    } else {
      var reason := if g.host == None then NO_HOST else if g.version != version then WRONG_VERSION else NORMAL;
      RefusalKeeps(s, reason);
      assert t == Refuse(s, reason);
    }
  }

  lemma {:induction false} GreetKeeps(s: Relay, version: byte, name: Text, password: Text, t: Relay)
    requires Inv(s) && t == Greet(s, version, name, password)
    ensures Inv(t)
  {
    var i := Find(s.games, name);
    if version != PROTOCOL_VERSION {
      assert t == Refuse(s, WRONG_VERSION);
      RefusalKeeps(s, WRONG_VERSION);
    } else if i == |s.games| {
      assert t == Refuse(s, GAME_UNKNOWN);
      RefusalKeeps(s, GAME_UNKNOWN);
    } else {
      AdmitKeeps(s, i, version, password, t);
    }
  }

  lemma {:induction false} CloseAllKeeps(s: Relay)
    requires Inv(s)
    ensures Inv(CloseAll(s)) && CloseAll(s).games == []
    decreases |s.games|
  {
    if s.games != [] {
      ShutDownKeeps(s, 0);
      CloseAllKeeps(ShutDown(s, 0));
    }
  }

  ghost predicate Forwarding(e: Event) {
    e.Upload? || e.Multicast? || e.AskRtt? || e.PingTimer? || e.PongFrom?
  }

  lemma ForwardingIsQuiet(s: Relay, e: Event)
    requires Forwarding(e)
    ensures Quiet(s.wire, Step(s, e).wire) && Step(s, e) == s.(wire := Step(s, e).wire)
  {
    var i := GameOf(s, e.conn);
    match e
    case PingTimer(c) => TickIsQuiet(s.wire, c);
    case PongFrom(c, _) => PlainIsQuiet(s.wire.(waiting := s.wire.waiting - {c}), Ponged(c));
    case Upload(c, packet) =>
      PlainIsQuiet(s.wire, NilHost(c));
      if c in s.seats && i < |s.games| && s.games[i].host.Some? {
        PlainIsQuiet(s.wire, Sent(s.games[i].host.value, FromClient(s.seats[c].id, packet)));
      }
    case Multicast(c, ids, packet) =>
      if i < |s.games| {
        SendEachIsQuiet(s.wire, Destinations(s.games[i].clients, ids), FromHost(packet));
      }
    case AskRtt(c, measured) =>
      PlainIsQuiet(s.wire, Sent(c, RttReply([], measured)));
      if i < |s.games| {
        PlainIsQuiet(s.wire, Sent(c, RttReply(Members(s.games[i].host, s.games[i].clients), measured)));
      }
  }

  // The metaserver's orders and the timer.
  lemma OrderKeeps(s: Relay, e: Event)
    requires Inv(s) && (e.Create? || e.Remove? || e.HostTimer?)
    ensures Inv(Step(s, e))
  {
    match e
    case Create(name, password) => CreateKeeps(s, name, password);
    case Remove(name) =>
      var i := Find(s.games, name);
      if i < |s.games| { ShutDownKeeps(s, i); }
    case HostTimer(name) =>
      var i := Find(s.games, name);
      if i < |s.games| { CloseKeeps(s, i, s.wire, {}); }
  }

  // Coming and going.
  lemma ArrivalKeeps(s: Relay, e: Event)
    requires Inv(s) && (e.Garbled? || e.Hello?)
    ensures Inv(Step(s, e))
  {
    match e
    case Garbled =>
      assert Step(s, e) == Refuse(s, PROTOCOL_VIOLATION);
      RefusalKeeps(s, PROTOCOL_VIOLATION);
    case Hello(version, name, password) => GreetKeeps(s, version, name, password, Step(s, e));
  }

  lemma LossKeeps(s: Relay, c: Conn, reason: Text)
    requires Inv(s)
    ensures Inv(Step(s, Lost(c, reason)))
  {
    var i := GameOf(s, c);
    if i < |s.games| { DropKeeps(s, i, c, reason); }
  }

  // Every step keeps the invariant.
  lemma {:induction false} StepKeeps(s: Relay, e: Event)
    requires Inv(s)
    ensures Inv(Step(s, e))
  {
    if e.Create? || e.Remove? || e.HostTimer? {
      OrderKeeps(s, e);
    } else if e.Garbled? || e.Hello? {
      ArrivalKeeps(s, e);
    } else if e.Lost? {
      LossKeeps(s, e.conn, e.reason);
    } else if e.Halt? {
      CloseAllKeeps(s);
    } else {
      ForwardingIsQuiet(s, e);
      QuietKeeps(s, Step(s, e).wire);
    }
  }

  // Hence every reachable state satisfies it.
  lemma {:induction false} RunKeeps(es: seq<Event>)
    ensures Inv(Run(es))
  {
    if es == [] {
      forall n ensures PhaseOf(START.wire.log, n) == Status(START.games, n) {}
    } else {
      RunKeeps(es[..|es| - 1]);
      StepKeeps(Run(es[..|es| - 1]), es[|es| - 1]);
    }
  }
}
