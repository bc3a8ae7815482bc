/** What holds of the relay in every run. */
module RelayTheorems {
  import opened GoText
  import opened RelayFraming
  import opened RelayModel
  import opened RelayInvariant

  // ---------------------------------------------------------------- the life of a name

  predicate LifeNote(note: Note, name: Text) {
    (note.Created? || note.Connected? || note.Closed?) && note.name == name
  }

  // What the metaserver sees of a name, in order.
  function Life(log: seq<Note>, name: Text): seq<Note> {
    if log == [] then []
    else
      var before, last := Life(log[..|log| - 1], name), log[|log| - 1];
      if LifeNote(last, name) then before + [last] else before
  }

  // Any number of (created, perhaps connected, closed) of one game object each, then perhaps a
  // beginning of another.
  ghost predicate Lawful(life: seq<Note>) {
    life == [] ||
    (life[0].Created? &&
     var k, n := life[0].serial, life[0].name;
     || |life| == 1
     || (life[1] == Closed(k, n) && Lawful(life[2..]))
     || (life[1] == Connected(k, n) && (|life| == 2 || (life[2] == Closed(k, n) && Lawful(life[3..])))))
  }

  // How an unfinished life stands.
  ghost function Standing(life: seq<Note>): Phase
    requires Lawful(life)
  {
    if life == [] then Absent
    else if |life| == 1 then Waiting(life[0].serial)
    else if life[1].Closed? then Standing(life[2..])
    else if |life| == 2 then Hosted(life[0].serial)
    else Standing(life[3..])
  }

  lemma {:induction false} LawfulNext(life: seq<Note>, note: Note, n: Text)
    requires Lawful(life) && LifeNote(note, n) && (forall k :: 0 <= k < |life| ==> LifeNote(life[k], n))
    requires Advance(Standing(life), note, n) != Broken
    ensures Lawful(life + [note]) && Standing(life + [note]) == Advance(Standing(life), note, n)
    decreases |life|
  {
    var more := life + [note];
    if |life| >= 2 && life[1].Closed? {
      LawfulNext(life[2..], note, n);
      assert more[2..] == life[2..] + [note];
    } else if |life| >= 3 {
      LawfulNext(life[3..], note, n);
      assert more[3..] == life[3..] + [note];
    } else {
      assert |life| == 1 ==> more[2..] == [];
      assert |life| == 2 ==> more[3..] == [];
    }
  }

  lemma {:induction false} LifeIsLawful(log: seq<Note>, n: Text)
    requires PhaseOf(log, n) != Broken
    ensures forall k :: 0 <= k < |Life(log, n)| ==> LifeNote(Life(log, n)[k], n)
    ensures Lawful(Life(log, n)) && Standing(Life(log, n)) == PhaseOf(log, n)
  {
    if log != [] {
      var before := log[..|log| - 1];
      LifeIsLawful(before, n);
      if LifeNote(log[|log| - 1], n) {
        LawfulNext(Life(before, n), log[|log| - 1], n);
      }
    }
  }

  function Births(log: seq<Note>, n: Text): nat {
    if log == [] then 0
    else Births(log[..|log| - 1], n) + if log[|log| - 1].Created? && log[|log| - 1].name == n then 1 else 0
  }

  function Deaths(log: seq<Note>, n: Text): nat {
    if log == [] then 0
    else Deaths(log[..|log| - 1], n) + if log[|log| - 1].Closed? && log[|log| - 1].name == n then 1 else 0
  }

  lemma {:induction false} BirthsAndDeaths(log: seq<Note>, n: Text)
    requires PhaseOf(log, n) != Broken
    ensures Births(log, n) == Deaths(log, n) + if PhaseOf(log, n) == Absent then 0 else 1
  {
    if log != [] {
      BirthsAndDeaths(log[..|log| - 1], n);
    }
  }

  // In every run, what the metaserver is told about a name is a sequence of complete lives
  // (created, at most one host connection, closed) with at most one unfinished life at the end;
  // it stands as the game list does, and the game was created as often as it was closed, plus once
  // if it is still listed.
  lemma GamesLiveInCycles(es: seq<Event>, n: Text)
    ensures
      var s := Run(es);
      && Lawful(Life(s.wire.log, n))
      && Standing(Life(s.wire.log, n)) == Status(s.games, n)
      && Births(s.wire.log, n) == Deaths(s.wire.log, n) + if Find(s.games, n) < |s.games| then 1 else 0
  {
    RunKeeps(es);
    LifeIsLawful(Run(es).wire.log, n);
    BirthsAndDeaths(Run(es).wire.log, n);
  }

  // The server's shutdown loop leaves no game, and every game that ever was has been reported closed.
  lemma HaltClosesEverything(es: seq<Event>, n: Text)
    ensures
      var t := Step(Run(es), Halt);
      t.games == [] && Births(t.wire.log, n) == Deaths(t.wire.log, n)
  {
    RunKeeps(es);
    CloseAllKeeps(Run(es));
    var t := Step(Run(es), Halt);
    assert PhaseOf(t.wire.log, n) == Status(t.games, n);
    BirthsAndDeaths(t.wire.log, n);
  }

  // ---------------------------------------------------------------- what steps add to the log

  // A note other than a creation, a host connection or the announcement of a client.
  ghost predicate Dull(note: Note) {
    note.Closed? || note.NilHost? || note.Ponged? || (note.Sent? && !note.cmd.ConnectClient?)
  }

  ghost predicate Grows(w: Wire, v: Wire) {
    w.log <= v.log && forall k :: |w.log| <= k < |v.log| ==> Dull(v.log[k])
  }

  lemma GrowsOn(u: Wire, v: Wire, w: Wire)
    requires Grows(u, v) && Grows(v, w)
    ensures Grows(u, w)
  {
    forall k | |u.log| <= k < |w.log| ensures Dull(w.log[k]) {
      if k < |v.log| { assert w.log[k] == v.log[k]; }
    }
  }

  lemma CutGrows(w: Wire, c: Conn, reason: Text)
    ensures Grows(w, Cut(w, c, reason))
  {
  }

  lemma ExpelGrows(w: Wire, host: Option<Conn>, p: Peer, reason: Text)
    ensures Grows(w, Expel(w, host, p, reason))
  {
    var v := if host.Some? then Send(w, host.value, DisconnectClient(p.id)) else w;
    CutGrows(v, p.conn, reason);
    GrowsOn(w, v, Cut(v, p.conn, reason));
  }

  lemma {:induction false} DrainGrows(w: Wire, host: Option<Conn>, clients: seq<Peer>)
    ensures Grows(w, Drain(w, host, clients))
    decreases |clients|
  {
    if clients != [] {
      var v := Expel(w, host, clients[0], NORMAL);
      ExpelGrows(w, host, clients[0], NORMAL);
      DrainGrows(v, host, clients[1..]);
      GrowsOn(w, v, Drain(w, host, clients));
    }
  }

  lemma {:induction false} SendEachGrows(w: Wire, to: seq<Conn>, cmd: Command)
    requires !cmd.ConnectClient?
    ensures Grows(w, SendEach(w, to, cmd))
    decreases |to|
  {
    if to != [] {
      SendEachGrows(Send(w, to[0], cmd), to[1..], cmd);
      GrowsOn(w, Send(w, to[0], cmd), SendEach(w, to, cmd));
    }
  }

  // No newcomers: the log grows by dull notes, and every listed game was listed before with the
  // same host and the same next id.
  ghost predicate Settled(s: Relay, t: Relay) {
    && Grows(s.wire, t.wire) && s.seats == t.seats && s.created == t.created
    && forall j :: 0 <= j < |t.games| ==> Was(s.games, t.games[j])
  }

  ghost predicate Was(games: seq<Game>, h: Game) {
    exists i :: 0 <= i < |games| && Same(games[i], h)
  }

  ghost predicate Same(g: Game, h: Game) {
    && g.serial == h.serial && g.name == h.name && g.password == h.password
    && g.host == h.host && g.version == h.version && g.nextId == h.nextId
  }

  lemma SettledOn(s: Relay, t: Relay, u: Relay)
    requires Settled(s, t) && Settled(t, u)
    ensures Settled(s, u)
  {
    GrowsOn(s.wire, t.wire, u.wire);
    forall j | 0 <= j < |u.games| ensures Was(s.games, u.games[j]) {
      assert Was(t.games, u.games[j]);
      var m :| 0 <= m < |t.games| && Same(t.games[m], u.games[j]);
      assert Was(s.games, t.games[m]);
      var i :| 0 <= i < |s.games| && Same(s.games[i], t.games[m]);
      assert Same(s.games[i], u.games[j]);
    }
  }

  lemma UpdateSettles(s: Relay, t: Relay)
    requires Grows(s.wire, t.wire) && s.seats == t.seats && s.created == t.created && |s.games| == |t.games|
    requires forall j :: 0 <= j < |t.games| ==> Same(s.games[j], t.games[j])
    ensures Settled(s, t)
  {
    forall j | 0 <= j < |t.games| ensures Was(s.games, t.games[j]) {
      assert Same(s.games[j], t.games[j]);
    }
  }

  lemma CloseSettles(s: Relay, i: nat, w: Wire)
    requires i < |s.games| && Grows(s.wire, w)
    ensures Settled(s, Close(s, i, w))
  {
    var t := Close(s, i, w);
    GrowsOn(s.wire, w, t.wire);
    forall j | 0 <= j < |t.games| ensures Was(s.games, t.games[j]) {
      assert Same(s.games[if j < i then j else j + 1], t.games[j]);
    }
  }

  lemma ShutDownSettles(s: Relay, i: nat)
    requires i < |s.games|
    ensures Settled(s, ShutDown(s, i))
  {
    var g := s.games[i];
    var w := Drain(s.wire, g.host, g.clients);
    DrainGrows(s.wire, g.host, g.clients);
    if g.host.Some? {
      CutGrows(w, g.host.value, NORMAL);
      GrowsOn(s.wire, w, Cut(w, g.host.value, NORMAL));
      CloseSettles(s, i, Cut(w, g.host.value, NORMAL));
    } else {
      CloseSettles(s, i, w);
    }
  }

  lemma DropSettles(s: Relay, i: nat, c: Conn, reason: Text)
    requires i < |s.games|
    ensures Settled(s, DropFrom(s, i, c, reason))
  {
    var g, t := s.games[i], DropFrom(s, i, c, reason);
    var k := FindPeer(g.clients, c);
    if g.host == Some(c) {
      var w := Cut(s.wire, c, reason);
      CutGrows(s.wire, c, reason);
      DrainGrows(w, None, g.clients);
      GrowsOn(s.wire, w, Drain(w, None, g.clients));
      CloseSettles(s, i, Drain(w, None, g.clients));
    } else {
      if k < |g.clients| { ExpelGrows(s.wire, g.host, g.clients[k], reason); }
      UpdateSettles(s, t);
    }
  }

  lemma {:induction false} CloseAllSettles(s: Relay)
    ensures Settled(s, CloseAll(s))
    decreases |s.games|
  {
    if s.games == [] {
      UpdateSettles(s, s);
    } else {
      ShutDownSettles(s, 0);
      CloseAllSettles(ShutDown(s, 0));
      SettledOn(s, ShutDown(s, 0), CloseAll(s));
    }
  }

  lemma ForwardingSettles(s: Relay, e: Event)
    requires Forwarding(e)
    ensures Settled(s, Step(s, e))
  {
    var i, t := GameOf(s, e.conn), Step(s, e);
    if e.Multicast? && i < |s.games| {
      SendEachGrows(s.wire, Destinations(s.games[i].clients, e.ids), FromHost(e.packet));
    }
    if e.PingTimer? { CutGrows(s.wire, e.conn, TIMEOUT); }
    UpdateSettles(s, t);
  }

  ghost predicate Newcomer(e: Event) {
    e.Create? || e.Hello?
  }

  lemma RemoveSettles(s: Relay, name: Text)
    ensures Settled(s, Step(s, Remove(name)))
  {
    var i := Find(s.games, name);
    UpdateSettles(s, s);
    if i < |s.games| { ShutDownSettles(s, i); }
  }

  lemma TimerSettles(s: Relay, name: Text)
    ensures Settled(s, Step(s, HostTimer(name)))
  {
    var i := Find(s.games, name);
    UpdateSettles(s, s);
    if i < |s.games| { CloseSettles(s, i, s.wire); }
  }

  lemma LeavingSettles(s: Relay, e: Event)
    requires e.Garbled? || e.Lost?
    ensures Settled(s, Step(s, e))
  {
    UpdateSettles(s, s);
    match e
    case Garbled =>
      CutGrows(s.wire, s.accepted, PROTOCOL_VIOLATION);
      UpdateSettles(s, Step(s, e));
    case Lost(c, reason) =>
      var i := GameOf(s, c);
      if i < |s.games| { DropSettles(s, i, c, reason); }
  }

  // Apart from creations and greetings, no step brings anyone new.
  lemma {:induction false} StepSettles(s: Relay, e: Event)
    requires !Newcomer(e)
    ensures Settled(s, Step(s, e))
  {
    if e.Remove? {
      RemoveSettles(s, e.name);
    } else if e.HostTimer? {
      TimerSettles(s, e.name);
    } else if e.Halt? {
      CloseAllSettles(s);
    } else if e.Garbled? || e.Lost? {
      LeavingSettles(s, e);
    } else {
      ForwardingSettles(s, e);
    }
  }

  // ---------------------------------------------------------------- one host a game, one use an id

  // Nothing in the log makes a second host or a second client with the same id.
  ghost predicate NoReuse(log: seq<Note>) {
    && (forall i, j :: 0 <= i < j < |log| && log[i].Created? && log[j].Created? ==> log[i].serial < log[j].serial)
    && (forall i, j :: 0 <= i < j < |log| && log[i].Connected? && log[j].Connected? ==> log[i].serial != log[j].serial)
    && (forall i, j :: 0 <= i < j < |log| && Announces(log[i]) && Announces(log[j]) && log[i].to == log[j].to
          ==> log[i].cmd.id < log[j].cmd.id)
  }

  ghost predicate Announces(note: Note) {
    note.Sent? && note.cmd.ConnectClient?
  }

  // The log mentions only what the state accounts for.
  ghost predicate Accounted(s: Relay, note: Note) {
    && (note.Created? || note.Connected? ==> note.serial < s.created)
    && (note.Connected? ==> forall i :: 0 <= i < |s.games| && s.games[i].serial == note.serial ==>
      s.games[i].host.Some?)
    && (Announces(note) ==> note.to in s.seats)
    && (Announces(note) ==>
          forall i :: 0 <= i < |s.games| && s.games[i].host == Some(note.to) ==> note.cmd.id < s.games[i].nextId)
  }

  ghost predicate History(s: Relay) {
    NoReuse(s.wire.log) && forall k :: 0 <= k < |s.wire.log| ==> Accounted(s, s.wire.log[k])
  }

  lemma AccountedStays(s: Relay, t: Relay, note: Note)
    requires Settled(s, t) && Accounted(s, note)
    ensures Accounted(t, note)
  {
    forall j | 0 <= j < |t.games|
      ensures note.Connected? && t.games[j].serial == note.serial ==> t.games[j].host.Some?
      ensures Announces(note) && t.games[j].host == Some(note.to) ==> note.cmd.id < t.games[j].nextId
    {
      assert Was(s.games, t.games[j]);
      var i :| 0 <= i < |s.games| && Same(s.games[i], t.games[j]);
    }
  }

  lemma NoReuseGrows(w: Wire, v: Wire)
    requires NoReuse(w.log) && Grows(w, v)
    ensures NoReuse(v.log)
  {
    assert forall k :: 0 <= k < |w.log| ==> v.log[k] == w.log[k];
    assert forall k :: |w.log| <= k < |v.log| ==> Dull(v.log[k]);
  }

  lemma SettledKeepsHistory(s: Relay, t: Relay)
    requires History(s) && Settled(s, t)
    ensures History(t)
  {
    NoReuseGrows(s.wire, t.wire);
    forall k | 0 <= k < |t.wire.log| ensures Accounted(t, t.wire.log[k]) {
      if k < |s.wire.log| {
        assert t.wire.log[k] == s.wire.log[k];
        AccountedStays(s, t, s.wire.log[k]);
      } else {
        assert Dull(t.wire.log[k]);
      }
    }
  }

  // One note that brings someone new, then dull ones.
  lemma NoteKeepsHistory(s: Relay, t: Relay, note: Note)
    requires History(s) && Grows(Tell(s.wire, note), t.wire) && Accounted(t, note)
    requires forall k :: 0 <= k < |s.wire.log| ==> Accounted(t, s.wire.log[k])
    requires note.Created? ==> note.serial == s.created
    requires note.Connected? ==>
      exists i :: 0 <= i < |s.games| && s.games[i].serial == note.serial && s.games[i].host == None
    requires Announces(note) ==>
      exists i :: 0 <= i < |s.games| && s.games[i].host == Some(note.to) && note.cmd.id == s.games[i].nextId
    ensures History(t)
  {
    var w, log := Tell(s.wire, note), s.wire.log;
    assert forall k :: 0 <= k < |log| ==> w.log[k] == log[k] && Accounted(s, log[k]);
    assert NoReuse(w.log);
    NoReuseGrows(w, t.wire);
    forall k | 0 <= k < |t.wire.log| ensures Accounted(t, t.wire.log[k]) {
      if k <= |log| {
        assert t.wire.log[k] == w.log[k];
      } else {
        assert Dull(t.wire.log[k]);
      }
    }
  }

  lemma CreateKeepsAccounts(s: Relay, name: Text, password: Text)
    requires History(s) && Find(s.games, name) == |s.games|
    ensures forall k :: 0 <= k < |s.wire.log| ==> Accounted(CreateGame(s, name, password), s.wire.log[k])
  {
    var t := CreateGame(s, name, password);
    assert forall j :: 0 <= j < |s.games| ==> t.games[j] == s.games[j];
    forall k | 0 <= k < |s.wire.log| ensures Accounted(t, s.wire.log[k]) {
      assert Accounted(s, s.wire.log[k]);
    }
  }

  lemma CreateKeepsHistory(s: Relay, name: Text, password: Text)
    requires Inv(s) && History(s)
    ensures History(CreateGame(s, name, password))
  {
    if Find(s.games, name) == |s.games| {
      CreateKeepsAccounts(s, name, password);
      NoteKeepsHistory(s, CreateGame(s, name, password), Created(s.created, name));
    }
  }

  lemma HostKeepsHistory(s: Relay, i: nat, version: byte, t: Relay)
    requires Inv(s) && History(s) && i < |s.games| && s.games[i].host == None
    requires t == AddClient(s.(accepted := s.accepted + 1), i, s.accepted, version, s.games[i].password)
    ensures History(t)
  {
    var g := s.games[i];
    assert forall j :: 0 <= j < |s.games| && j != i ==> t.games[j] == s.games[j];
    forall k | 0 <= k < |s.wire.log| ensures Accounted(t, s.wire.log[k]) {
      assert Accounted(s, s.wire.log[k]);
    }
    NoteKeepsHistory(s, t, Connected(g.serial, g.name));
  }

  lemma ClientKeepsHistory(s: Relay, i: nat, t: Relay)
    requires Inv(s) && History(s) && i < |s.games| && s.games[i].host.Some? && s.games[i].nextId < ID_LIMIT
    requires t == AddClient(s.(accepted := s.accepted + 1), i, s.accepted, s.games[i].version, [])
    ensures History(t)
  {
    var g := s.games[i];
    assert forall j :: 0 <= j < |s.games| && j != i ==> t.games[j] == s.games[j] && s.games[j].host != g.host;
    forall k | 0 <= k < |s.wire.log| ensures Accounted(t, s.wire.log[k]) {
      assert Accounted(s, s.wire.log[k]);
    }
    NoteKeepsHistory(s, t, Sent(g.host.value, ConnectClient(g.nextId)));
  }

  lemma RefusalKeepsHistory(s: Relay, t: Relay, reason: Text)
    requires History(s) && t == Refuse(s, reason)
    ensures History(t)
  {
    CutGrows(s.wire, s.accepted, reason);
    UpdateSettles(s, t);
    SettledKeepsHistory(s, t);
  }

  lemma {:induction false} GreetKeepsHistory(s: Relay, version: byte, name: Text, password: Text, t: Relay)
    requires Inv(s) && History(s) && t == Greet(s, version, name, password)
    ensures History(t)
  {
    var i := Find(s.games, name);
    if version != PROTOCOL_VERSION {
      RefusalKeepsHistory(s, t, WRONG_VERSION);
    } else if i == |s.games| {
      RefusalKeepsHistory(s, t, GAME_UNKNOWN);
    } else {
      var g := s.games[i];
      if g.host == None && password == g.password {
        HostKeepsHistory(s, i, version, t);
      } else if g.host.Some? && g.version == version && g.nextId < ID_LIMIT {
        ClientKeepsHistory(s, i, t);
      } else {
        RefusalKeepsHistory(s, t, if g.host == None then NO_HOST
          else if g.version != version then WRONG_VERSION else NORMAL);
      }
    }
  }

  lemma {:induction false} RunKeepsHistory(es: seq<Event>)
    ensures History(Run(es))
  {
    if es != [] {
      var s, e := Run(es[..|es| - 1]), es[|es| - 1];
      RunKeeps(es[..|es| - 1]);
      RunKeepsHistory(es[..|es| - 1]);
      match e
      case Create(name, password) => CreateKeepsHistory(s, name, password);
      case Hello(version, name, password) => GreetKeepsHistory(s, version, name, password, Step(s, e));
      case _ =>
        StepSettles(s, e);
        SettledKeepsHistory(s, Step(s, e));
    }
  }

  // In every run a game object is created once, gets a host at most once, and never announces the
  // same id to it twice: announced ids only ever rise.
  lemma NothingIsReused(es: seq<Event>)
    ensures NoReuse(Run(es).wire.log)
  {
    RunKeepsHistory(es);
  }

  // ---------------------------------------------------------------- the host's picture

  // In every run, replaying the connect and disconnect commands sent to a host gives exactly the
  // ids in its game's client list, which are increasing and lie between 2 and 249.
  lemma HostsKnowTheirClients(es: seq<Event>, i: nat)
    requires i < |Run(es).games| && Run(es).games[i].host.Some?
    ensures
      var g := Run(es).games[i];
      && Picture(Run(es).wire.log, g.host.value) == Ids(g.clients)
      && (forall k :: 0 <= k < |g.clients| ==> 2 <= g.clients[k].id <= 249)
      && (forall j, k :: 0 <= j < k < |g.clients| ==> g.clients[j].id < g.clients[k].id)
  {
    RunKeeps(es);
  }

  // A forwarded packet goes to the host of the client's game under the client's id. The host knows
  // that id exactly when the client is still listed; there is no host to forward to exactly when
  // the client's game is no longer listed.
  lemma UploadReachesTheHost(es: seq<Event>, c: Conn, packet: Text)
    requires c in Run(es).seats && Run(es).seats[c].id != HOST_ID
    ensures
      var s := Run(es);
      var i, id, log := GameOf(s, c), s.seats[c].id, Step(s, Upload(c, packet)).wire.log;
      if i == |s.games| then log == s.wire.log + [NilHost(c)]
      else
        && s.games[i].host.Some?
        && log == s.wire.log + [Sent(s.games[i].host.value, FromClient(id, packet))]
        && (id in Picture(s.wire.log, s.games[i].host.value) <==> Peer(c, id) in s.games[i].clients)
  {
    RunKeeps(es);
    var s := Run(es);
    var i, id := GameOf(s, c), s.seats[c].id;
    if i < |s.games| {
      var g := s.games[i];
      assert SeatOk(s.seats[c], g);
      if id in Ids(g.clients) {
        var k :| 0 <= k < |g.clients| && g.clients[k].id == id;
        assert s.seats[g.clients[k].conn] == s.seats[c];
      }
    }
  }

  lemma {:induction false} DrainShuts(w: Wire, host: Option<Conn>, clients: seq<Peer>, c: Conn)
    requires forall k :: 0 <= k < |clients| ==> clients[k].conn != c
    ensures c in Drain(w, host, clients).shut <==> c in w.shut
    decreases |clients|
  {
    if clients != [] {
      DrainShuts(Expel(w, host, clients[0], NORMAL), host, clients[1..], c);
    }
  }

  // A run in which it does happen that there is no host to forward to: a client is still sending when
  // the metaserver has its game removed.
  function NilHostRun(name: Text, password: Text, packet: Text): seq<Event> {
    [Create(name, password), Hello(PROTOCOL_VERSION, name, password), Hello(PROTOCOL_VERSION, name, []), Remove(name),
     Upload(1, packet)]
  }

  lemma GameWithOne(name: Text, password: Text, s: Relay)
    requires s == Run([Create(name, password), Hello(PROTOCOL_VERSION, name, password)])
    ensures s.games == [Game(0, name, password, PROTOCOL_VERSION, Some(0), [], 2)] && s.accepted == 1
  {
    var es := [Create(name, password), Hello(PROTOCOL_VERSION, name, password)];
    assert es[..1] == [es[0]] && es[..1][..0] == [];
    var s1 := Step(START, es[0]);
    assert s1 == Run(es[..1]);
    assert s1.games == [Game(0, name, password, 0, None, [], 2)];
    assert s == Step(s1, es[1]);
  }

  // With e the second member of the game of that name arrives.
  ghost predicate Joins(s: Relay, e: Event, name: Text) {
    var t := Step(s, e);
    |t.games| == 1 && t.games[0].name == name && 1 in t.seats && t.seats[1].id == 2
  }

  lemma GameWithTwo(name: Text, s: Relay)
    requires |s.games| == 1 && s.accepted == 1 && s.games[0].name == name
    requires s.games[0].host == Some(0) && s.games[0].version == PROTOCOL_VERSION && s.games[0].nextId == 2
    ensures Joins(s, Hello(PROTOCOL_VERSION, name, []), name)
  {
  }

  // No game is left after e, and who was admitted stays on record.
  ghost predicate Empties(s: Relay, e: Event) {
    Step(s, e).games == [] && Step(s, e).seats == s.seats
  }

  lemma GameRemoved(s: Relay, name: Text)
    requires |s.games| == 1 && s.games[0].name == name
    ensures Empties(s, Remove(name))
  {
    assert Step(s, Remove(name)) == ShutDown(s, 0);
  }

  lemma NobodyToForwardTo(s: Relay, packet: Text)
    requires s.games == [] && 1 in s.seats && s.seats[1].id == 2
    ensures Step(s, Upload(1, packet)).wire.log == s.wire.log + [NilHost(1)]
  {
  }

  // The run is in state s after k events.
  ghost predicate Reaches(es: seq<Event>, k: nat, s: Relay) {
    k <= |es| && Run(es[..k]) == s
  }

  lemma {:induction false} ReachesNext(es: seq<Event>, k: nat, s: Relay, t: Relay)
    requires k < |es| && Reaches(es, k, s) && Step(s, es[k]) == t
    ensures Reaches(es, k + 1, t)
  {
    assert es[..k + 1][..k] == es[..k];
  }

  lemma {:induction false} NilHostWhile(es: seq<Event>, packet: Text, s: Relay)
    requires |es| == 5 && Empties(s, es[3]) && es[4] == Upload(1, packet) && Reaches(es, 3, s)
    requires 1 in s.seats && s.seats[1].id == 2
    ensures var log := Run(es).wire.log; |log| > 0 && log[|log| - 1] == NilHost(1)
  {
    ReachesNext(es, 3, s, Step(s, es[3]));
    NilHostThen(es, packet, Step(s, es[3]));
  }

  lemma {:induction false} NilHostThen(es: seq<Event>, packet: Text, s: Relay)
    requires |es| == 5 && es[4] == Upload(1, packet) && Reaches(es, 4, s)
    requires s.games == [] && 1 in s.seats && s.seats[1].id == 2
    ensures var log := Run(es).wire.log; |log| > 0 && log[|log| - 1] == NilHost(1)
  {
    NobodyToForwardTo(s, packet);
    ReachesNext(es, 4, s, Step(s, Upload(1, packet)));
    assert es[..5] == es;
  }

  lemma {:induction false} NilHostFrom(es: seq<Event>, name: Text, packet: Text, s: Relay)
    requires |es| == 5 && Reaches(es, 2, s) && Joins(s, es[2], name)
    requires es[3] == Remove(name) && es[4] == Upload(1, packet)
    ensures var log := Run(es).wire.log; |log| > 0 && log[|log| - 1] == NilHost(1)
  {
    var t := Step(s, es[2]);
    ReachesNext(es, 2, s, t);
    GameRemoved(t, name);
    NilHostWhile(es, packet, t);
  }

  lemma {:induction false} NilHostHappens(name: Text, password: Text, packet: Text)
    ensures var log := Run(NilHostRun(name, password, packet)).wire.log; |log| > 0 && log[|log| - 1] == NilHost(1)
  {
    var es := NilHostRun(name, password, packet);
    assert es[..2] == [Create(name, password), Hello(PROTOCOL_VERSION, name, password)];
    GameWithOne(name, password, Run(es[..2]));
    GameWithTwo(name, Run(es[..2]));
    NilHostFrom(es, name, packet, Run(es[..2]));
  }

  // The host is told that everyone leaves, then it gets its own disconnect command (unless its
  // connection has already been closed), and the closing notice comes last.
  lemma RemovalInOrder(s: Relay, i: nat)
    requires i < |s.games| && s.games[i].host.Some?
    ensures
      var g := s.games[i];
      var w := Drain(s.wire, g.host, g.clients);
      var bye := if g.host.value in s.wire.shut then [] else [Sent(g.host.value, Disconnect(NORMAL))];
      (g.host.value in w.shut <==> g.host.value in s.wire.shut) ==>
        ShutDown(s, i).wire.log == w.log + bye + [Closed(g.serial, g.name)]
  {
  }

  // When the metaserver orders a hosted game removed, the host has been told that everyone left
  // before it gets its own disconnect command, and the closing notice comes last.
  lemma {:induction false} RemovalEmptiesThePictureFirst(es: seq<Event>, name: Text)
    requires
      var s := Run(es);
      var i := Find(s.games, name);
      i < |s.games| && s.games[i].host.Some?
    ensures
      var s := Run(es);
      var g := s.games[Find(s.games, name)];
      var w := Drain(s.wire, g.host, g.clients);
      var bye := if g.host.value in s.wire.shut then [] else [Sent(g.host.value, Disconnect(NORMAL))];
      && Picture(w.log, g.host.value) == {}
      && Step(s, Remove(name)).wire.log == w.log + bye + [Closed(g.serial, name)]
  {
    RunKeeps(es);
    var s := Run(es);
    PictureEmptied(s, Find(s.games, name));
    RemovalInOrder(s, Find(s.games, name));
  }

  lemma {:induction false} PictureEmptied(s: Relay, i: nat)
    requires Inv(s) && i < |s.games| && s.games[i].host.Some?
    ensures
      var g := s.games[i];
      var w := Drain(s.wire, g.host, g.clients);
      Picture(w.log, g.host.value) == {} && (g.host.value in w.shut <==> g.host.value in s.wire.shut)
  {
    var g := s.games[i];
    DrainLoses(s.wire, g.host, g.clients);
    DrainShuts(s.wire, g.host, g.clients, g.host.value);
  }

  // When the host itself goes, it is not told about its clients any more: if its connection was
  // still open, the disconnect command reaches it while it believes them all present.
  lemma {:induction false} LosingTheHostLeavesThePicture(es: seq<Event>, i: nat, reason: Text)
    requires i < |Run(es).games| && Run(es).games[i].host.Some?
    ensures
      var s := Run(es);
      var g := s.games[i];
      var t := Step(s, Lost(g.host.value, reason));
      && Picture(t.wire.log, g.host.value) == Ids(g.clients)
      && t.games == Without(s.games, i)
      && (g.host.value !in s.wire.shut ==>
            |t.wire.log| > |s.wire.log| && t.wire.log[|s.wire.log|] == Sent(g.host.value, Disconnect(reason)))
  {
    RunKeeps(es);
    HostLostOf(Run(es), i, reason);
  }

  lemma {:induction false} HostLostOf(s: Relay, i: nat, reason: Text)
    requires Inv(s) && i < |s.games| && s.games[i].host.Some?
    ensures
      var g := s.games[i];
      var t := Step(s, Lost(g.host.value, reason));
      && Picture(t.wire.log, g.host.value) == Ids(g.clients)
      && t.games == Without(s.games, i)
      && (g.host.value !in s.wire.shut ==>
            |t.wire.log| > |s.wire.log| && t.wire.log[|s.wire.log|] == Sent(g.host.value, Disconnect(reason)))
  {
    assert GameOf(s, s.games[i].host.value) == i;
    assert Step(s, Lost(s.games[i].host.value, reason)) == HostLost(s, i, reason);
    PictureAfterLoss(s, i, reason);
    if s.games[i].host.value !in s.wire.shut { HostIsToldFirst(s, i, reason); }
  }

  lemma {:induction false} PictureAfterLoss(s: Relay, i: nat, reason: Text)
    requires PicturesOk(s) && i < |s.games| && s.games[i].host.Some?
    ensures Picture(HostLost(s, i, reason).wire.log, s.games[i].host.value) == Ids(s.games[i].clients)
  {
    var g := s.games[i];
    var w := Cut(s.wire, g.host.value, reason);
    CutIsQuiet(s.wire, g.host.value, reason);
    DrainLoses(w, None, g.clients);
    Told(Drain(w, None, g.clients), Closed(g.serial, g.name));
  }

  lemma {:induction false} HostIsToldFirst(s: Relay, i: nat, reason: Text)
    requires i < |s.games| && s.games[i].host.Some? && s.games[i].host.value !in s.wire.shut
    ensures
      var log := HostLost(s, i, reason).wire.log;
      |log| > |s.wire.log| && log[|s.wire.log|] == Sent(s.games[i].host.value, Disconnect(reason))
  {
    var g := s.games[i];
    DrainGrows(Cut(s.wire, g.host.value, reason), None, g.clients);
  }

  // ---------------------------------------------------------------- round trip times and multicast

  // The reply to a round trip time request never truncates its count: one triple for the host and
  // one per client, all ids different, at most 249 of them.
  lemma RttReplyIsExact(es: seq<Event>, i: nat, measured: Measured)
    requires i < |Run(es).games|
    ensures
      var g := Run(es).games[i];
      var r := RttReply(Members(g.host, g.clients), measured);
      && WellFormed(r)
      && |r.rtts| == |g.clients| + (if g.host.Some? then 1 else 0) <= 249
      && (forall j, k :: 0 <= j < k < |r.rtts| ==> r.rtts[j].id < r.rtts[k].id)
  {
    RunKeeps(es);
    RttReplyOf(Run(es).games[i], measured);
  }

  lemma RttReplyOf(g: Game, measured: Measured)
    requires IdsOk(g)
    ensures
      var r := RttReply(Members(g.host, g.clients), measured);
      && WellFormed(r)
      && |r.rtts| == |g.clients| + (if g.host.Some? then 1 else 0) <= 249
      && (forall j, k :: 0 <= j < k < |r.rtts| ==> r.rtts[j].id < r.rtts[k].id)
  {
    FewClients(g, |g.clients|);
    MembersRise(g);
  }

  lemma MembersRise(g: Game)
    requires IdsOk(g)
    ensures var m := Members(g.host, g.clients); forall j, k :: 0 <= j < k < |m| ==> m[j].id < m[k].id
  {
    var m := Members(g.host, g.clients);
    var shift := |m| - |g.clients|;
    assert forall k :: shift <= k < |m| ==> m[k] == g.clients[k - shift];
  }

  lemma {:induction false} FewClients(g: Game, k: nat)
    requires IdsOk(g) && k <= |g.clients|
    ensures k == 0 || g.clients[k - 1].id as int >= k + 1
  {
    if k > 1 {
      FewClients(g, k - 1);
    }
  }

  // The members a multicast is for: one delivery per mention of a listed id, none for the others.
  ghost function Mentions(g: Game, seats: map<Conn, Seat>, ids: seq<byte>, c: Conn): nat {
    if c in seats && Peer(c, seats[c].id) in g.clients then Tally(ids, seats[c].id) else 0
  }

  lemma {:induction false} OneDeliveryPerMention(g: Game, seats: map<Conn, Seat>, ids: seq<byte>, c: Conn)
    requires IdsOk(g) && Seated(seats, g)
    ensures Tally(Destinations(g.clients, ids), c) == Mentions(g, seats, ids, c)
    decreases |ids|
  {
    if ids != [] {
      var k, rest := FindId(g.clients, ids[0]), Destinations(g.clients, ids[1..]);
      OneDeliveryPerMention(g, seats, ids[1..], c);
      FirstDelivery(g, seats, ids[0], c);
      if k < |g.clients| {
        assert ([g.clients[k].conn] + rest)[1..] == rest;
      } else {
        assert [] + rest == rest;
      }
    }
  }

  lemma FirstDelivery(g: Game, seats: map<Conn, Seat>, id: byte, c: Conn)
    requires IdsOk(g) && Seated(seats, g)
    ensures
      var k := FindId(g.clients, id);
      k < |g.clients| && g.clients[k].conn == c <==>
        c in seats && Peer(c, seats[c].id) in g.clients && id == seats[c].id
  {
    var k := FindId(g.clients, id);
    if c in seats && Peer(c, seats[c].id) in g.clients && id == seats[c].id {
      var j :| 0 <= j < |g.clients| && g.clients[j] == Peer(c, id);
      assert k <= j;
    }
  }

  lemma {:induction false} SendEachLog(w: Wire, to: seq<Conn>, cmd: Command)
    ensures SendEach(w, to, cmd).log == w.log + seq(|to|, k requires 0 <= k < |to| => Sent(to[k], cmd))
    decreases |to|
  {
    if to != [] {
      SendEachLog(Send(w, to[0], cmd), to[1..], cmd);
      assert seq(|to|, k requires 0 <= k < |to| => Sent(to[k], cmd))
        == [Sent(to[0], cmd)] + seq(|to[1..]|, k requires 0 <= k < |to[1..]| => Sent(to[1..][k], cmd));
    }
  }

  // A host's multicast is delivered to exactly the currently listed clients whose id it mentions,
  // once per mention, in the order of mention.
  lemma {:induction false} MulticastReachesTheListed(es: seq<Event>, i: nat, ids: seq<byte>, packet: Text, c: Conn)
    requires i < |Run(es).games| && Run(es).games[i].host.Some?
    ensures
      var s := Run(es);
      var g := s.games[i];
      var to := Destinations(g.clients, ids);
      && Step(s, Multicast(g.host.value, ids, packet)).wire.log
           == s.wire.log + seq(|to|, k requires 0 <= k < |to| => Sent(to[k], FromHost(packet)))
      && Tally(to, c) == Mentions(g, s.seats, ids, c)
  {
    RunKeeps(es);
    MulticastOf(Run(es), i, ids, packet);
    MentionsOf(Run(es), i, ids, c);
  }

  lemma {:induction false} MulticastOf(s: Relay, i: nat, ids: seq<byte>, packet: Text)
    requires Inv(s) && i < |s.games| && s.games[i].host.Some?
    ensures
      var to := Destinations(s.games[i].clients, ids);
      Step(s, Multicast(s.games[i].host.value, ids, packet)).wire.log
        == s.wire.log + seq(|to|, k requires 0 <= k < |to| => Sent(to[k], FromHost(packet)))
  {
    var g := s.games[i];
    assert GameOf(s, g.host.value) == i;
    assert Step(s, Multicast(g.host.value, ids, packet)).wire ==
      SendEach(s.wire, Destinations(g.clients, ids), FromHost(packet));
    SendEachLog(s.wire, Destinations(g.clients, ids), FromHost(packet));
  }

  lemma {:induction false} MentionsOf(s: Relay, i: nat, ids: seq<byte>, c: Conn)
    requires Inv(s) && i < |s.games|
    ensures Tally(Destinations(s.games[i].clients, ids), c) == Mentions(s.games[i], s.seats, ids, c)
  {
    OneDeliveryPerMention(s.games[i], s.seats, ids, c);
  }

  // ---------------------------------------------------------------- who may do what

  // In every run, nobody but the host of a listed game reaches its clients by a multicast, and nobody but a
  // member that is not a host reaches anybody by an upload.
  lemma {:induction false} OthersForwardNothing(es: seq<Event>, c: Conn, ids: seq<byte>, packet: Text)
    ensures
      var s := Run(es);
      && ((forall i :: 0 <= i < |s.games| ==> s.games[i].host != Some(c)) ==>
            Step(s, Multicast(c, ids, packet)) == s)
      && (c !in s.seats || (exists i :: 0 <= i < |s.games| && s.games[i].host == Some(c)) ==>
            Step(s, Upload(c, packet)) == s)
  {
    RunKeeps(es);
    ForwardsNothing(Run(es), c, ids, packet);
  }

  lemma ForwardsNothing(s: Relay, c: Conn, ids: seq<byte>, packet: Text)
    requires GamesOk(s)
    ensures (forall i :: 0 <= i < |s.games| ==> s.games[i].host != Some(c)) ==> Step(s, Multicast(c, ids, packet)) == s
    ensures c !in s.seats || (exists i :: 0 <= i < |s.games| && s.games[i].host == Some(c)) ==>
      Step(s, Upload(c, packet)) == s
  {
    if i :| 0 <= i < |s.games| && s.games[i].host == Some(c) {
      assert Seated(s.seats, s.games[i]);
    }
  }

  // In every run, when a client is lost, its host is told, the client is told the reason unless it is gone
  // already, and the game goes on with all the others.
  lemma {:induction false} LosingAClientSparesTheRest(es: seq<Event>, i: nat, k: nat, reason: Text)
    requires i < |Run(es).games| && k < |Run(es).games[i].clients|
    ensures
      var s := Run(es);
      var g := s.games[i];
      var c, t := g.clients[k].conn, Step(s, Lost(g.clients[k].conn, reason));
      && g.host.Some?
      && t.games == s.games[i := g.(clients := Without(g.clients, k))]
      && t.wire.log ==
           s.wire.log + [Sent(g.host.value, DisconnectClient(g.clients[k].id))]
           + if c in s.wire.shut then [] else [Sent(c, Disconnect(reason))]
  {
    RunKeeps(es);
    ClientLostOf(Run(es), i, k, reason);
  }

  lemma {:induction false} ClientLostOf(s: Relay, i: nat, k: nat, reason: Text)
    requires Inv(s) && i < |s.games| && k < |s.games[i].clients|
    ensures
      var g := s.games[i];
      var c, t := g.clients[k].conn, Step(s, Lost(g.clients[k].conn, reason));
      && g.host.Some?
      && t.games == s.games[i := g.(clients := Without(g.clients, k))]
      && t.wire.log ==
           s.wire.log + [Sent(g.host.value, DisconnectClient(g.clients[k].id))]
           + if c in s.wire.shut then [] else [Sent(c, Disconnect(reason))]
  {
    var g, c := s.games[i], s.games[i].clients[k].conn;
    assert IdsOk(g) && Seated(s.seats, g);
    assert GameOf(s, c) == i;
    assert g.host != Some(c);
    var f := FindPeer(g.clients, c);
    assert f == k by { assert s.seats[c].id == g.clients[k].id; }
  }
}
