/** Who is let into a game on the relay (wlnr/game.go, wlnr/server.go): the host by its password, in whatever
    run, and what becomes of everybody else. */
module RelayAdmission {
  import opened GoText
  import opened RelayFraming
  import opened RelayModel
  import opened RelayInvariant
  import opened RelayTheorems
  import RelayGoodbyes

  // ---------------------------------------------------------------- passwords

  // The k-th event is the metaserver's order that made the game of that serial.
  ghost predicate Ordered(es: seq<Event>, k: nat, g: Game) {
    && k < |es| && es[k] == Create(g.name, g.password)
    && Run(es[..k]).created == g.serial && Run(es[..k + 1]).created == g.serial + 1
  }

  // The j-th event is the greeting of the connection that has become the host, with the right password.
  ghost predicate Greeted(es: seq<Event>, j: nat, g: Game) {
    && g.host.Some? && j < |es| && es[j] == Hello(1, g.name, g.password) && Run(es[..j]).accepted == g.host.value
  }

  ghost predicate Entitled(es: seq<Event>, g: Game) {
    && (exists k :: Ordered(es, k, g))
    && (g.host.Some? ==> g.version == 1 && exists j, k :: k < j && Greeted(es, j, g) && Ordered(es, k, g))
  }

  lemma {:induction false} OrderedLater(es: seq<Event>, e: Event, k: nat, g: Game)
    requires Ordered(es, k, g)
    ensures Ordered(es + [e], k, g)
  {
    assert (es + [e])[..k] == es[..k] && (es + [e])[..k + 1] == es[..k + 1];
  }

  lemma {:induction false} GreetedLater(es: seq<Event>, e: Event, j: nat, g: Game)
    requires Greeted(es, j, g)
    ensures Greeted(es + [e], j, g)
  {
    assert (es + [e])[..j] == es[..j];
  }

  lemma {:induction false} EntitledLater(es: seq<Event>, e: Event, g: Game)
    requires Entitled(es, g)
    ensures Entitled(es + [e], g)
  {
    var k: nat :| Ordered(es, k, g);
    OrderedLater(es, e, k, g);
    if g.host.Some? {
      var j: nat, k: nat :| k < j && Greeted(es, j, g) && Ordered(es, k, g);
      OrderedLater(es, e, k, g);
      GreetedLater(es, e, j, g);
    }
  }

  // Nothing that Entitled speaks of has changed.
  lemma EntitledAlike(es: seq<Event>, g: Game, h: Game)
    requires Entitled(es, g) && Same(g, h)
    ensures Entitled(es, h)
  {
    var k: nat :| Ordered(es, k, g);
    assert Ordered(es, k, h);
    if g.host.Some? {
      var j: nat, k: nat :| k < j && Greeted(es, j, g) && Ordered(es, k, g);
      assert Greeted(es, j, h) && Ordered(es, k, h);
    }
  }

  lemma {:induction false} MadeIsEntitled(es: seq<Event>, name: Text, password: Text)
    requires Find(Run(es).games, name) == |Run(es).games|
    ensures
      var t := CreateGame(Run(es), name, password);
      |t.games| > 0 && Entitled(es + [Create(name, password)], t.games[|t.games| - 1])
  {
    var more := es + [Create(name, password)];
    var t := CreateGame(Run(es), name, password);
    assert more[..|es|] == es && more[..|es| + 1] == more;
    assert Run(more) == t;
    assert Ordered(more, |es|, t.games[|t.games| - 1]);
  }

  lemma {:induction false} HostIsEntitled(es: seq<Event>, g: Game, h: Game)
    requires Entitled(es, g) && g.host == None && h == g.(version := 1, host := Some(Run(es).accepted))
    ensures Entitled(es + [Hello(1, g.name, g.password)], h)
  {
    var e := Hello(1, g.name, g.password);
    var k: nat :| Ordered(es, k, g);
    OrderedLater(es, e, k, g);
    assert Ordered(es + [e], k, h);
    assert (es + [e])[..|es|] == es;
    assert Greeted(es + [e], |es|, h);
  }

  // What a greeting does to the list: at most one game changes, and keeps its host unless it had none
  // and the password was right.
  lemma GreetingEntitles(s: Relay, version: byte, name: Text, password: Text, j: nat)
    requires j < |Greet(s, version, name, password).games|
    ensures
      var h := Greet(s, version, name, password).games[j];
      && j < |s.games|
      && var g := s.games[j];
         || h == g
         || (g.host.Some? && h == g.(clients := h.clients, nextId := h.nextId))
         || (version == 1 && name == g.name && password == g.password && g.host == None
             && h == g.(version := 1, host := Some(s.accepted)))
  {
  }

  lemma {:induction false} HelloEntitles(es: seq<Event>, version: byte, name: Text, password: Text, j: nat)
    requires forall g :: g in Run(es).games ==> Entitled(es, g)
    requires j < |Greet(Run(es), version, name, password).games|
    ensures Entitled(es + [Hello(version, name, password)], Greet(Run(es), version, name, password).games[j])
  {
    var s, h, e := Run(es), Greet(Run(es), version, name, password).games[j], Hello(version, name, password);
    GreetingEntitles(s, version, name, password, j);
    var g := s.games[j];
    if g.host == None && h.host.Some? {
      HostIsEntitled(es, g, h);
    } else {
      EntitledLater(es, e, g);
      HelloKeepsEntitled(es + [e], g, h);
    }
  }

  lemma {:induction false} CreateEntitles(es: seq<Event>, name: Text, password: Text, j: nat)
    requires forall g :: g in Run(es).games ==> Entitled(es, g)
    requires j < |CreateGame(Run(es), name, password).games|
    ensures Entitled(es + [Create(name, password)], CreateGame(Run(es), name, password).games[j])
  {
    var s := Run(es);
    if j < |s.games| {
      assert CreateGame(s, name, password).games[j] == s.games[j];
      EntitledLater(es, Create(name, password), s.games[j]);
    } else {
      MadeIsEntitled(es, name, password);
    }
  }

  // Nobody has come with e.
  lemma {:induction false} SettledEntitles(es: seq<Event>, e: Event, s: Relay, t: Relay, h: Game)
    requires forall g :: g in s.games ==> Entitled(es, g)
    requires Settled(s, t) && h in t.games
    ensures Entitled(es + [e], h)
  {
    assert Was(s.games, h);
    var i :| 0 <= i < |s.games| && RelayTheorems.Same(s.games[i], h);
    EntitledLater(es, e, s.games[i]);
    EntitledAlike(es + [e], s.games[i], h);
  }

  lemma {:induction false} StepEntitles(es: seq<Event>, e: Event, j: nat)
    requires forall g :: g in Run(es).games ==> Entitled(es, g)
    requires j < |Step(Run(es), e).games|
    ensures Entitled(es + [e], Step(Run(es), e).games[j])
  {
    if e.Create? {
      CreateEntitles(es, e.name, e.password, j);
    } else if e.Hello? {
      HelloEntitles(es, e.version, e.name, e.password, j);
    } else {
      StepSettles(Run(es), e);
      SettledEntitles(es, e, Run(es), Step(Run(es), e), Step(Run(es), e).games[j]);
    }
  }

  lemma HelloKeepsEntitled(es: seq<Event>, g: Game, h: Game)
    requires Entitled(es, g) && h == g.(clients := h.clients, nextId := h.nextId)
    ensures Entitled(es, h)
  {
    EntitledAlike(es, g.(nextId := h.nextId), h) by {
      var k: nat :| Ordered(es, k, g);
      assert Ordered(es, k, g.(nextId := h.nextId));
      if g.host.Some? {
        var j: nat, k: nat :| k < j && Greeted(es, j, g) && Ordered(es, k, g);
        assert Greeted(es, j, g.(nextId := h.nextId)) && Ordered(es, k, g.(nextId := h.nextId));
      }
    }
  }

  // In every run, a listed game was ordered by the metaserver under its name, and whoever is its host has
  // greeted, after that, with protocol version 1, the game's name and the very password of the order.
  lemma {:induction false} HostsKnewThePassword(es: seq<Event>, g: Game)
    requires g in Run(es).games
    ensures exists k :: Ordered(es, k, g)
    ensures g.host.Some? ==> exists j, k :: k < j && Greeted(es, j, g) && Ordered(es, k, g)
  {
    EveryoneIsEntitled(es);
    assert Entitled(es, g);
  }

  lemma {:induction false} EveryoneIsEntitled(es: seq<Event>)
    ensures forall g :: g in Run(es).games ==> Entitled(es, g)
  {
    if es != [] {
      var before, e := es[..|es| - 1], es[|es| - 1];
      EveryoneIsEntitled(before);
      assert es == before + [e];
      forall j | 0 <= j < |Run(es).games| ensures Entitled(es, Run(es).games[j]) { StepEntitles(before, e, j); }
    }
  }

  // ---------------------------------------------------------------- greetings, decided

  // The newcomer is sent away with the reason, and nothing else happens.
  ghost predicate SentAway(s: Relay, t: Relay, reason: Text) {
    && t.games == s.games && t.seats == s.seats && t.accepted == s.accepted + 1
    && t.wire.log == s.wire.log + [Sent(s.accepted, Disconnect(reason))] && s.accepted in t.wire.shut
  }

  // The newcomer gets a seat.
  ghost predicate Admitted(s: Relay, t: Relay, i: nat, g: Game, id: byte, told: Note) {
    && i < |s.games| && t.games == s.games[i := g] && t.accepted == s.accepted + 1
    && t.seats == s.seats[s.accepted := Seat(g.serial, id)]
    && t.wire.log == s.wire.log + [told, Sent(s.accepted, Welcome(1, g.name))] && t.wire.shut == s.wire.shut
  }

  // Only version 1 and a listed game, the i-th, will do. A game without a host takes whoever has its password
  // for it, and nobody else; the metaserver is told. A game with a host takes anyone while there are ids below
  // 250, and tells the host the newcomer's.
  ghost predicate Decided(s: Relay, t: Relay, version: byte, password: Text, i: nat)
    requires i <= |s.games|
  {
    if version != 1 then SentAway(s, t, Ascii("WRONG_VERSION"))
    else if i == |s.games| then SentAway(s, t, Ascii("GAME_UNKNOWN"))
    else
      var g := s.games[i];
      match g.host
      case None =>
        if password != g.password then SentAway(s, t, Ascii("NO_HOST"))
        else Admitted(s, t, i, g.(version := 1, host := Some(s.accepted)), 1, Connected(g.serial, g.name))
      case Some(h) =>
        if g.nextId >= 250 then SentAway(s, t, Ascii("NORMAL"))
        else
          Admitted(s, t, i, g.(clients := g.clients + [Peer(s.accepted, g.nextId)], nextId := g.nextId + 1),
            g.nextId, Sent(h, ConnectClient(g.nextId)))
  }

  // What a greeting leads to, in every run.
  lemma {:induction false} GreetingIsDecided(es: seq<Event>, version: byte, name: Text, password: Text, i: nat)
    requires i <= |Run(es).games| && (i < |Run(es).games| ==> Run(es).games[i].name == name)
    requires i == |Run(es).games| ==> forall g :: g in Run(es).games ==> g.name != name
    ensures Decided(Run(es), Step(Run(es), Hello(version, name, password)), version, password, i)
  {
    var s := Run(es);
    RunKeeps(es);
    RelayGoodbyes.RunKeepsTold(es);
    EveryoneIsEntitled(es);
    if i < |s.games| {
      FindIs(s.games, i);
      assert Entitled(es, s.games[i]);
    }
    GreetingOf(s, version, name, password, i);
  }

  lemma GreetingOf(s: Relay, version: byte, name: Text, password: Text, i: nat)
    requires s.accepted !in s.wire.shut && i == Find(s.games, name)
    requires i < |s.games| && s.games[i].host.Some? ==> s.games[i].version == 1
    ensures Decided(s, Step(s, Hello(version, name, password)), version, password, i)
  {
    if i < |s.games| && s.games[i].host == None && password == s.games[i].password {
      var note := Connected(s.games[i].serial, name);
      var welcome := Sent(s.accepted, Welcome(version, name));
      assert s.wire.log + [note] + [welcome] == s.wire.log + [note, welcome];
    } else if i < |s.games| && s.games[i].host.Some? && s.games[i].nextId < 250 {
      var note := Sent(s.games[i].host.value, ConnectClient(s.games[i].nextId));
      var welcome := Sent(s.accepted, Welcome(1, name));
      assert s.wire.log + [note] + [welcome] == s.wire.log + [note, welcome];
    }
  }

  // ---------------------------------------------------------------- the timer

  // The timer that is set when a game is created closes the game of that name, and reports it closed, exactly
  // if it has no host; so afterwards no game of that name is without one.
  lemma {:induction false} TimerLeavesOnlyHosted(es: seq<Event>, name: Text)
    ensures
      var s, t := Run(es), Step(Run(es), HostTimer(name));
      && (forall g :: g in t.games <==> g in s.games && (g.name == name ==> g.host.Some?))
      && (if exists g :: g in s.games && g.name == name && g.host == None
          then exists k :: t.wire.log == s.wire.log + [Closed(k, name)]
          else t == s)
  {
    RunKeeps(es);
    TimerOf(Run(es), name);
  }

  lemma TimerOf(s: Relay, name: Text)
    requires DistinctNames(s.games)
    ensures
      var t := Step(s, HostTimer(name));
      && (forall g :: g in t.games <==> g in s.games && (g.name == name ==> g.host.Some?))
      && (if exists g :: g in s.games && g.name == name && g.host == None
          then exists k :: t.wire.log == s.wire.log + [Closed(k, name)]
          else t == s)
  {
    var i, t := Find(s.games, name), Step(s, HostTimer(name));
    if i < |s.games| && s.games[i].host == None {
      forall g ensures g in t.games <==> g in s.games && g != s.games[i] {
        WithoutOne(s.games, i, g);
      }
      assert t.wire.log == s.wire.log + [Closed(s.games[i].serial, name)];
    }
  }

  lemma WithoutOne(games: seq<Game>, i: nat, g: Game)
    requires i < |games| && DistinctNames(games)
    ensures g in Without(games, i) <==> g in games && g != games[i]
  {
    var rest := Without(games, i);
    if g in games && g != games[i] {
      var k :| 0 <= k < |games| && games[k] == g;
      assert rest[if k < i then k else k - 1] == g;
    }
    if g in rest {
      var k :| 0 <= k < |rest| && rest[k] == g;
      assert games[if k < i then k else k + 1] == g;
    }
  }
}
