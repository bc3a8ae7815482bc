/** What the metaserver's list says of a game, against the whole history of the two servers (wlms/game.go,
    wlms/server.go): in which state a game is, and when an entry comes and goes. */
module GameStates {
  import opened GoText
  import opened Agreement
  import R = RelayModel
  import RelayInvariant
  import RelayTheorems

  ghost predicate Lists(m: Meta, ref: nat) {
    exists i :: 0 <= i < |m.games| && m.games[i].ref == ref
  }

  // With the last event the host of the game of that name has connected to the relay.
  ghost predicate HostComes(before: R.Relay, after: R.Relay, name: Text) {
    HostThere(after, name) && !HostThere(before, name)
  }

  // How the step from s to t that e makes changes the state of a listed game.
  ghost function NextState(s: System, e: Event, t: System, g: Game): GameState {
    match e
    case Start(ref) => if ref == g.ref then Running else g.state
    case Ping(ref, answered, _) =>
      if ref != g.ref || g.usesRelay || g.state == Running then g.state
      else if answered then Connectable else NotConnectable
    case AtRelay(_) => if HostComes(s.relay, t.relay, g.name) then Connectable else g.state
    case _ => g.state
  }

  // The state of a game as the history has it: at first it is being set up; a start makes it running; a ping of
  // a self-hosted game that is not running says whether one can connect; and a game on the relay can be
  // joined as soon as its host has connected to the relay.
  ghost function Story(es: seq<Event>, ref: nat, name: Text, usesRelay: bool): GameState {
    if es == [] || !Lists(Run(es[..|es| - 1]).meta, ref) then InitialSetup
    else
      var before := es[..|es| - 1];
      var state := Story(before, ref, name, usesRelay);
      NextState(Run(before), es[|es| - 1], Run(es), Game(ref, name, [], usesRelay, state))
  }

  ghost predicate SameEntry(g: Game, h: Game) {
    g.ref == h.ref && g.name == h.name && g.host == h.host && g.usesRelay == h.usesRelay
  }

  // h is new with e.
  ghost predicate Opens(m: Meta, e: Event, h: Game) {
    && e.Open? && h == Game(m.made, e.name, e.host, !e.legacy, InitialSetup)
    && forall i :: 0 <= i < |m.games| ==> m.games[i].name != e.name
  }

  // h was listed as g before e.
  ghost predicate Continues(s: System, e: Event, t: System, g: Game, h: Game) {
    g in s.meta.games && SameEntry(g, h) && h.state == NextState(s, e, t, g)
  }

  ghost predicate Explained(s: System, e: Event, t: System, h: Game) {
    Opens(s.meta, e, h) || exists g :: Continues(s, e, t, g, h)
  }

  // ---------------------------------------------------------------- what reports do to the list

  lemma {:induction false} ClosingsOnlyRemove(m: Meta, notes: seq<R.Note>)
    requires forall k :: 0 <= k < |notes| ==> !notes[k].Connected?
    ensures forall h :: h in DeliverAll(m, notes).games ==> h in m.games
    decreases |notes|
  {
    if notes != [] { ClosingsOnlyRemove(Deliver(m, notes[0]), notes[1..]); }
  }

  // No report removes a self-hosted game.
  lemma {:induction false} SelfHostedStay(m: Meta, log: seq<R.Note>, notes: seq<R.Note>, g: Game)
    requires Agree(m, log) && (forall k :: 0 <= k < |notes| ==> !notes[k].Created? && !notes[k].Connected?)
    requires forall n :: R.PhaseOf(log + notes, n) != R.Broken
    requires g in m.games && !g.usesRelay
    ensures g in DeliverAll(m, notes).games
    decreases |notes|
  {
    if notes != [] {
      var note, rest := notes[0], notes[1..];
      assert log + notes == log + [note] + rest;
      if note.Closed? && R.PhaseOf(log + [note], note.name) == R.Broken {
        BrokenStays(log + [note], rest, note.name);
      }
      SelfHostedStaysOnce(m, log, note, g);
      DeliverKeeps(m, log, note);
      SelfHostedStay(Deliver(m, note), log + [note], rest, g);
    }
  }

  lemma SelfHostedStaysOnce(m: Meta, log: seq<R.Note>, note: R.Note, g: Game)
    requires Agree(m, log) && !note.Connected? && g in m.games && !g.usesRelay
    requires note.Closed? ==> R.PhaseOf(log + [note], note.name) != R.Broken
    ensures g in Deliver(m, note).games
  {
    if note.Closed? {
      assert (log + [note])[..|log|] == log;
      assert AgreeOn(m, log, note.name);
      var i := HasGame(m.games, note.name);
      FindRefAt(m, i);
      var k :| 0 <= k < |m.games| && m.games[k] == g;
      assert k != i;
      assert R.Without(m.games, i)[if k < i then k else k - 1] == g;
    }
  }

  // ---------------------------------------------------------------- steps of the relay

  // Nobody has come: nobody's host is there who was not there before.
  lemma NobodyComes(r: R.Relay, u: R.Relay, name: Text)
    requires RelayTheorems.Settled(r, u)
    ensures !HostComes(r, u, name)
  {
    if HostThere(u, name) {
      var k :| 0 <= k < |u.games| && u.games[k].name == name && u.games[k].host.Some?;
      assert RelayTheorems.Was(r.games, u.games[k]);
      var i :| 0 <= i < |r.games| && RelayTheorems.Same(r.games[i], u.games[k]);
    }
  }

  lemma {:induction false} QuietRelayStep(s: System, r: R.Event, e: Event, h: Game)
    requires !RelayTheorems.Newcomer(r) && (e == AtRelay(r) || e.Kick?)
    requires h in RelayStep(s, r).meta.games
    ensures Continues(s, e, RelayStep(s, r), h, h)
  {
    RelayTheorems.StepSettles(s.relay, r);
    var t := R.Step(s.relay, r);
    NobodyComes(s.relay, t, h.name);
    ClosingsOnlyRemove(s.meta, t.wire.log[|s.relay.wire.log|..]);
  }

  // What a greeting does to the metaserver's list.
  lemma HelloReports(s: System, version: byte, name: Text, password: Text)
    requires Inv(s)
    ensures
      var t := RelayStep(s, R.Hello(version, name, password));
      var i, k := HasGame(s.meta.games, name), R.Find(s.relay.games, name);
      if version == 1 && k < |s.relay.games| && s.relay.games[k].host == None && s.relay.games[k].password == password
      then i < |s.meta.games| && s.meta.games[i].usesRelay && t.meta == SetState(s.meta, i, Connectable)
      else t.meta == s.meta
  {
    FreeOnBoth(s, name);
    HelloNotes(s.relay, version, name, password);
    NotesHeard(s.meta, s.relay, R.Greet(s.relay, version, name, password), R.Find(s.relay.games, name), name,
      version == 1 && HostAwaited(s.relay, name, password));
  }

  // The relay has a game of that name without a host, and the password is right.
  predicate HostAwaited(r: R.Relay, name: Text, password: Text) {
    var k := R.Find(r.games, name);
    k < |r.games| && r.games[k].host == None && r.games[k].password == password
  }

  lemma NotesHeard(m: Meta, r: R.Relay, t: R.Relay, k: nat, name: Text, comes: bool)
    requires r.wire.log <= t.wire.log
    requires comes ==>
      && k < |r.games| && |t.wire.log| == |r.wire.log| + 2
      && t.wire.log[|r.wire.log|] == R.Connected(r.games[k].serial, name) && t.wire.log[|r.wire.log| + 1].Sent?
    requires !comes ==> forall j :: |r.wire.log| <= j < |t.wire.log| ==> t.wire.log[j].Sent?
    ensures
      DeliverAll(m, t.wire.log[|r.wire.log|..]) ==
      if comes && HasGame(m.games, name) < |m.games| then SetState(m, HasGame(m.games, name), Connectable) else m
  {
    if comes { OneReport(m, t.wire.log[|r.wire.log|..]); } else { NoReport(m, t.wire.log[|r.wire.log|..]); }
  }

  lemma {:induction false} NoReport(m: Meta, notes: seq<R.Note>)
    requires forall k :: 0 <= k < |notes| ==> notes[k].Sent?
    ensures DeliverAll(m, notes) == m
    decreases |notes|
  {
    if notes != [] { NoReport(m, notes[1..]); }
  }

  lemma {:induction false} OneReport(m: Meta, notes: seq<R.Note>)
    requires |notes| == 2 && notes[1].Sent?
    ensures DeliverAll(m, notes) == Deliver(m, notes[0])
  {
    NoReport(Deliver(m, notes[0]), notes[1..]);
  }

  lemma HelloNotes(r: R.Relay, version: byte, name: Text, password: Text)
    ensures
      var t := R.Greet(r, version, name, password);
      var k, n := R.Find(r.games, name), |r.wire.log|;
      && r.wire.log <= t.wire.log && |t.wire.log| <= n + 2
      && (version == 1 && k < |r.games| && r.games[k].host == None && r.games[k].password == password ==>
            |t.wire.log| == n + 2 && t.wire.log[n] == R.Connected(r.games[k].serial, name) && t.wire.log[n + 1].Sent?)
      && (!(version == 1 && k < |r.games| && r.games[k].host == None && r.games[k].password == password) ==>
            forall j :: n <= j < |t.wire.log| ==> t.wire.log[j].Sent?)
  {
  }

  lemma HelloBrings(r: R.Relay, version: byte, name: Text, password: Text, n: Text)
    requires RelayInvariant.DistinctNames(r.games)
    ensures
      var t := R.Greet(r, version, name, password);
      var k := R.Find(r.games, name);
      HostComes(r, t, n) <==>
        && n == name && version == 1 && k < |r.games|
        && r.games[k].host == None && r.games[k].password == password
  {
    var t := R.Greet(r, version, name, password);
    var k := R.Find(r.games, name);
    assert forall j :: 0 <= j < |r.games| ==> t.games[j].name == r.games[j].name;
    if k < |r.games| { HelloSeats(r, version, name, password, k); }
    if HostThere(r, n) {
      var j :| 0 <= j < |r.games| && r.games[j].name == n && r.games[j].host.Some?;
      assert j == k ==> t.games[k].host.Some?;
    }
    if HostThere(t, n) && !HostThere(r, n) {
      var j :| 0 <= j < |t.games| && t.games[j].name == n && t.games[j].host.Some?;
      assert j == k;
    }
  }

  lemma HelloSeats(r: R.Relay, version: byte, name: Text, password: Text, k: nat)
    requires k == R.Find(r.games, name) && k < |r.games|
    ensures
      var t := R.Greet(r, version, name, password);
      && |t.games| == |r.games| && t.games[k].name == name
      && (forall j :: 0 <= j < |r.games| && j != k ==> t.games[j] == r.games[j])
      && (t.games[k].host.Some? <==>
            r.games[k].host.Some? || (version == 1 && r.games[k].password == password))
  {
  }

  lemma {:induction false} HelloStep(s: System, version: byte, name: Text, password: Text, h: Game)
    requires Inv(s) && h in RelayStep(s, R.Hello(version, name, password)).meta.games
    ensures
      var e := AtRelay(R.Hello(version, name, password));
      exists g :: Continues(s, e, RelayStep(s, e.e), g, h)
  {
    var e := AtRelay(R.Hello(version, name, password));
    var t := RelayStep(s, e.e);
    var j :| 0 <= j < |t.meta.games| && t.meta.games[j] == h;
    HelloReports(s, version, name, password);
    HelloContinues(s, version, name, password, t, j);
  }

  lemma {:induction false} HelloContinues(s: System, version: byte, name: Text, password: Text, t: System, j: nat)
    requires Inv(s) && t.relay == R.Greet(s.relay, version, name, password)
    requires
      var i, k := HasGame(s.meta.games, name), R.Find(s.relay.games, name);
      if version == 1 && k < |s.relay.games| && s.relay.games[k].host == None && s.relay.games[k].password == password
      then i < |s.meta.games| && t.meta == SetState(s.meta, i, Connectable)
      else t.meta == s.meta
    requires j < |t.meta.games| && |t.meta.games| == |s.meta.games|
    ensures Continues(s, AtRelay(R.Hello(version, name, password)), t, s.meta.games[j], t.meta.games[j])
  {
    var g := s.meta.games[j];
    HelloBrings(s.relay, version, name, password, g.name);
    if g.name == name { HasGameAt(s.meta.games, name, j); }
  }

  // ---------------------------------------------------------------- every step

  // One state is set, if the entry is there.
  lemma SetStateExplained(s: System, e: Event, ref: nat, state: GameState, j: nat)
    requires Inv(s) && FindRef(s.meta.games, ref) < |s.meta.games| && j < |s.meta.games|
    requires Step(s, e) == s.(meta := SetState(s.meta, FindRef(s.meta.games, ref), state))
    requires forall g :: g in s.meta.games ==>
      NextState(s, e, Step(s, e), g) == if g.ref == ref then state else g.state
    ensures Continues(s, e, Step(s, e), s.meta.games[j], Step(s, e).meta.games[j])
  {
    FindRefAt(s.meta, j);
  }

  lemma StartExplained(s: System, e: Event, j: nat)
    requires Inv(s) && e.Start? && j < |s.meta.games|
    ensures |Step(s, e).meta.games| == |s.meta.games|
    ensures Continues(s, e, Step(s, e), s.meta.games[j], Step(s, e).meta.games[j])
  {
    if FindRef(s.meta.games, e.ref) < |s.meta.games| { SetStateExplained(s, e, e.ref, Running, j); }
  }

  // A ping that does not remove the game.
  lemma PingExplained(s: System, e: Event, j: nat)
    requires Inv(s) && e.Ping? && (e.answered || e.hostThere) && j < |s.meta.games|
    ensures |Step(s, e).meta.games| == |s.meta.games|
    ensures Continues(s, e, Step(s, e), s.meta.games[j], Step(s, e).meta.games[j])
  {
    var i := FindRef(s.meta.games, e.ref);
    if i < |s.meta.games| && !s.meta.games[i].usesRelay {
      forall g | g in s.meta.games
        ensures g.ref == e.ref ==> g == s.meta.games[i]
      {
        var k :| 0 <= k < |s.meta.games| && s.meta.games[k] == g;
        FindRefAt(s.meta, k);
      }
      SetStateExplained(s, e, e.ref, AfterPing(s.meta.games[i].state, e.answered), j);
    } else {
      FindRefAt(s.meta, j);
    }
  }

  lemma OpenExplained(s: System, e: Event, j: nat)
    requires Inv(s) && e.Open? && j < |Step(s, e).meta.games|
    ensures Explained(s, e, Step(s, e), Step(s, e).meta.games[j])
  {
    var t := Step(s, e);
    if j < |s.meta.games| {
      assert Continues(s, e, t, s.meta.games[j], t.meta.games[j]);
    } else {
      assert Opens(s.meta, e, t.meta.games[j]);
    }
  }

  // An entry that is removed leaves the others alone.
  lemma RemovalExplained(s: System, e: Event, h: Game)
    requires Inv(s) && (e.HostLeaves? || (e.Ping? && !e.answered && !e.hostThere))
    requires h in Step(s, e).meta.games
    ensures Continues(s, e, Step(s, e), h, h)
  {
    var i := FindRef(s.meta.games, e.ref);
    if i < |s.meta.games| && e.Ping? && !s.meta.games[i].usesRelay {
      NotInTheRest(s.meta, i);
      var k :| 0 <= k < |s.meta.games| && s.meta.games[k] == h;
      FindRefAt(s.meta, k);
    }
  }

  lemma NotInTheRest(m: Meta, i: nat)
    requires MetaOk(m) && i < |m.games|
    ensures m.games[i] !in R.Without(m.games, i)
  {
    var rest := R.Without(m.games, i);
    forall j | 0 <= j < |rest| ensures rest[j] != m.games[i] {
      assert rest[j] == m.games[if j < i then j else j + 1];
    }
  }

  lemma {:induction false} KickExplained(s: System, name: Text, h: Game)
    requires h in Step(s, Kick(name)).meta.games
    ensures exists g :: Continues(s, Kick(name), Step(s, Kick(name)), g, h)
  {
    var i := HasGame(s.meta.games, name);
    if i < |s.meta.games| && s.meta.games[i].usesRelay {
      assert h in RelayStep(s, R.Remove(name)).meta.games;
      QuietRelayStep(s, R.Remove(name), Kick(name), h);
    }
    assert Continues(s, Kick(name), Step(s, Kick(name)), h, h);
  }

  // In every step from a state in which the servers agree, whatever is listed afterwards was opened by the
  // step or was listed before, and is in the state the step leads to.
  lemma {:induction false} StepExplained(s: System, e: Event, h: Game)
    requires Inv(s) && h in Step(s, e).meta.games
    ensures Explained(s, e, Step(s, e), h)
  {
    var t := Step(s, e);
    var j :| 0 <= j < |t.meta.games| && t.meta.games[j] == h;
    if e.Open? {
      OpenExplained(s, e, j);
    } else if e.Start? {
      StartExplained(s, e, j);
    } else if e.Ping? && (e.answered || e.hostThere) {
      PingExplained(s, e, j);
    } else if e.Ping? || e.HostLeaves? {
      RemovalExplained(s, e, h);
    } else if e.Kick? {
      KickExplained(s, e.name, h);
    } else {
      AtRelayExplained(s, e.e, h);
    }
  }

  lemma {:induction false} AtRelayExplained(s: System, r: R.Event, h: Game)
    requires Inv(s) && h in Step(s, AtRelay(r)).meta.games
    ensures Explained(s, AtRelay(r), Step(s, AtRelay(r)), h)
  {
    var e, t := AtRelay(r), Step(s, AtRelay(r));
    if r.Create? || r.Remove? {
      assert Continues(s, e, t, h, h);
    } else if r.Hello? {
      HelloStep(s, r.version, r.name, r.password, h);
    } else {
      QuietRelayStep(s, r, e, h);
      assert Continues(s, e, t, h, h);
    }
  }

  // ---------------------------------------------------------------- every run

  // In every run of the two servers, every listed game is in the state its history gives it.
  lemma {:induction false} StatesFollowHistory(es: seq<Event>, h: Game)
    requires h in Run(es).meta.games
    ensures h.state == Story(es, h.ref, h.name, h.usesRelay)
  {
    if es != [] {
      var before, e := es[..|es| - 1], es[|es| - 1];
      var s, t := Run(before), Run(es);
      RunKeepsAgreement(before);
      StepExplained(s, e, h);
      if !Opens(s.meta, e, h) {
        var g :| Continues(s, e, t, g, h);
        StatesFollowHistory(before, g);
        StoryContinues(es, s, t, g, h);
      }
    }
  }

  lemma {:induction false} StoryContinues(es: seq<Event>, s: System, t: System, g: Game, h: Game)
    requires es != [] && s == Run(es[..|es| - 1]) && t == Run(es) && Continues(s, es[|es| - 1], t, g, h)
    requires g.state == Story(es[..|es| - 1], g.ref, g.name, g.usesRelay)
    ensures h.state == Story(es, h.ref, h.name, h.usesRelay)
  {
    assert Lists(s.meta, h.ref);
    NextStateAlike(s, es[|es| - 1], t, g, Game(h.ref, h.name, [], h.usesRelay, g.state));
  }

  lemma NextStateAlike(s: System, e: Event, t: System, g: Game, h: Game)
    requires g.ref == h.ref && g.name == h.name && g.usesRelay == h.usesRelay && g.state == h.state
    ensures NextState(s, e, t, g) == NextState(s, e, t, h)
  {
  }

  // Whether a host is connected never changes back while the game is listed.
  lemma {:induction false} HostStays(s: System, e: Event, name: Text)
    requires Inv(s) && Inv(Step(s, e)) && OnRelay(Step(s, e).meta, name) && OnRelay(s.meta, name)
    ensures HostThere(s.relay, name) ==> HostThere(Step(s, e).relay, name)
  {
    var t := Step(s, e);
    if HostThere(s.relay, name) {
      var i :| 0 <= i < |s.relay.games| && s.relay.games[i].name == name && s.relay.games[i].host.Some?;
      FreeOnBoth(t, name);
      var k := R.Find(t.relay.games, name);
      RelayListKept(s, e, k);
      var j :| 0 <= j < |s.relay.games| && KeepsHost(s.relay.games[j], t.relay.games[k]);
      assert i == j;
    }
  }

  ghost predicate KeepsHost(g: R.Game, h: R.Game) {
    g.name == h.name && (g.host.Some? ==> h.host == g.host)
  }

  lemma {:induction false} RelayListKept(s: System, e: Event, k: nat)
    requires k < |Step(s, e).relay.games| && Inv(s) && OnRelay(s.meta, Step(s, e).relay.games[k].name)
    ensures exists j :: 0 <= j < |s.relay.games| && KeepsHost(s.relay.games[j], Step(s, e).relay.games[k])
  {
    var t := Step(s, e);
    if t.relay == s.relay {
      assert KeepsHost(s.relay.games[k], t.relay.games[k]);
    } else if e.Open? {
      assert k < |s.relay.games| ==> KeepsHost(s.relay.games[k], t.relay.games[k]);
    } else {
      RelayKeepsHosts(s.relay, if e.Kick? then R.Remove(e.name) else e.e, t.relay, k);
    }
  }

  lemma {:induction false} RelayKeepsHosts(r: R.Relay, e: R.Event, t: R.Relay, k: nat)
    requires t == R.Step(r, e) && k < |t.games| && !e.Create?
    ensures exists j :: 0 <= j < |r.games| && KeepsHost(r.games[j], t.games[k])
  {
    if e.Hello? {
      HelloKeepsHosts(r, e.version, e.name, e.password, k);
    } else {
      RelayTheorems.StepSettles(r, e);
      assert RelayTheorems.Was(r.games, t.games[k]);
      var j :| 0 <= j < |r.games| && RelayTheorems.Same(r.games[j], t.games[k]);
      assert KeepsHost(r.games[j], t.games[k]);
    }
  }

  lemma HelloKeepsHosts(r: R.Relay, version: byte, name: Text, password: Text, k: nat)
    requires k < |R.Greet(r, version, name, password).games|
    ensures k < |r.games| && KeepsHost(r.games[k], R.Greet(r, version, name, password).games[k])
  {
  }

  // Only the relay itself, when somebody greets it, brings a host.
  lemma {:induction false} HostsComeByGreeting(s: System, e: Event, name: Text)
    requires Inv(s) && !e.AtRelay?
    ensures !HostComes(s.relay, Step(s, e).relay, name)
  {
    var t := Step(s, e);
    if e.Kick? && t.relay != s.relay {
      RelayTheorems.StepSettles(s.relay, R.Remove(e.name));
      NobodyComes(s.relay, t.relay, name);
    } else if HostThere(t.relay, name) {
      var k :| 0 <= k < |t.relay.games| && t.relay.games[k].name == name && t.relay.games[k].host.Some?;
      assert k < |s.relay.games| ==> s.relay.games[k] == t.relay.games[k];
    }
  }

  // A game on the relay can be joined, or has been started, if its host is there; without it, it is being set
  // up, or has been started all the same.
  ghost predicate StateFits(s: System, h: Game) {
    h.usesRelay ==>
      h.state == Running || h.state == if HostThere(s.relay, h.name) then Connectable else InitialSetup
  }

  lemma {:induction false} ListedOnRelay(s: System, h: Game)
    requires Inv(s) && h in s.meta.games && h.usesRelay
    ensures OnRelay(s.meta, h.name)
  {
    var j :| 0 <= j < |s.meta.games| && s.meta.games[j] == h;
    HasGameAt(s.meta.games, h.name, j);
  }

  lemma {:induction false} StepFits(s: System, e: Event, h: Game)
    requires Inv(s) && Inv(Step(s, e)) && h in Step(s, e).meta.games
    requires forall g :: g in s.meta.games ==> StateFits(s, g)
    ensures StateFits(Step(s, e), h)
  {
    var t := Step(s, e);
    if h.usesRelay {
      StepExplained(s, e, h);
      ListedOnRelay(t, h);
      if Opens(s.meta, e, h) {
        OpensWithoutHost(s, e, h);
      } else {
        var g :| Continues(s, e, t, g, h);
        ListedOnRelay(s, g);
        HostStays(s, e, g.name);
        if !e.AtRelay? { HostsComeByGreeting(s, e, g.name); }
      }
    }
  }

  lemma {:induction false} OpensWithoutHost(s: System, e: Event, h: Game)
    requires Inv(s) && Opens(s.meta, e, h)
    ensures !HostThere(Step(s, e).relay, h.name)
  {
    FreeOnBoth(s, h.name);
    HostsComeByGreeting(s, e, h.name);
    assert !HostThere(s.relay, h.name);
  }

  // In every run, a listed game on the relay whose host is connected there can be joined unless it has been
  // started since; as long as the host is not connected, it cannot be joined.
  lemma {:induction false} RelayGamesOpenWithTheirHost(es: seq<Event>, h: Game)
    requires h in Run(es).meta.games
    ensures StateFits(Run(es), h)
  {
    if es != [] {
      var before, e := es[..|es| - 1], es[|es| - 1];
      RunKeepsAgreement(before);
      RunKeepsAgreement(es);
      forall g | g in Run(before).meta.games ensures StateFits(Run(before), g) {
        RelayGamesOpenWithTheirHost(before, g);
      }
      StepFits(Run(before), e, h);
    }
  }

  // In every run, when somebody greets the relay with the password of a game that waits for its host, that
  // very game can be joined on the metaserver, and the rest of the metaserver's list stays as it is.
  lemma {:induction false} GreetingOpensTheGame(es: seq<Event>, k: nat)
    requires k < |Run(es).relay.games| && Run(es).relay.games[k].host == None
    ensures
      var s, g := Run(es), Run(es).relay.games[k];
      var t := Step(s, AtRelay(R.Hello(1, g.name, g.password)));
      exists i ::
        && 0 <= i < |s.meta.games| && s.meta.games[i].name == g.name
        && t.meta.games == s.meta.games[i := s.meta.games[i].(state := Connectable)]
  {
    var s, g := Run(es), Run(es).relay.games[k];
    RunKeepsAgreement(es);
    RelayInvariant.FindIs(s.relay.games, k);
    HelloReports(s, 1, g.name, g.password);
  }

  // ---------------------------------------------------------------- entries come and go

  // e ends the game g: its host leaves, or is gone when a ping is not answered; it is kicked; or the relay has
  // closed it.
  ghost predicate Ends(e: Event, t: System, g: Game) {
    match e
    case HostLeaves(ref) => ref == g.ref && !g.usesRelay
    case Ping(ref, answered, hostThere) => ref == g.ref && !g.usesRelay && !answered && !hostThere
    case Kick(name) => name == g.name
    case AtRelay(_) => g.usesRelay && g.name !in Names(t.relay)
    case _ => false
  }

  ghost predicate Remains(m: Meta, g: Game) {
    exists h :: h in m.games && SameEntry(g, h)
  }

  // An entry of another name, or of the same identity, is still there after a removal.
  lemma RemovalEnds(m: Meta, i: nat, g: Game)
    requires MetaOk(m) && i < |m.games| && g in m.games
    ensures Remains(RemoveGame(m, m.games[i].ref), g) <==> g.ref != m.games[i].ref
    ensures g.ref == m.games[i].ref <==> g.name == m.games[i].name
  {
    FindRefAt(m, i);
    var rest := R.Without(m.games, i);
    var k :| 0 <= k < |m.games| && m.games[k] == g;
    if k != i { assert rest[if k < i then k else k - 1] == g && SameEntry(g, g); }
    forall j | 0 <= j < |rest| ensures rest[j].ref != m.games[i].ref {
      assert rest[j] == m.games[if j < i then j else j + 1];
    }
  }

  lemma ByRef(m: Meta, g: Game)
    requires MetaOk(m) && g in m.games
    ensures FindRef(m.games, g.ref) < |m.games| && m.games[FindRef(m.games, g.ref)] == g
    ensures HasGame(m.games, g.name) < |m.games| && m.games[HasGame(m.games, g.name)] == g
  {
    var k :| 0 <= k < |m.games| && m.games[k] == g;
    FindRefAt(m, k);
    HasGameAt(m.games, g.name, k);
  }

  lemma MetaStepEnds(s: System, e: Event, g: Game)
    requires Inv(s) && (e.HostLeaves? || e.Ping? || e.Start?) && g in s.meta.games
    ensures Remains(Step(s, e).meta, g) <==> !Ends(e, Step(s, e), g)
  {
    ByRef(s.meta, g);
    var i := FindRef(s.meta.games, e.ref);
    if i < |s.meta.games| { RemovalEnds(s.meta, i, g); }
    if |Step(s, e).meta.games| == |s.meta.games| { MetaStepSpares(s, e, g); }
  }

  lemma MetaStepSpares(s: System, e: Event, g: Game)
    requires Inv(s) && (e.HostLeaves? || e.Ping? || e.Start?) && g in s.meta.games
    requires |Step(s, e).meta.games| == |s.meta.games|
    ensures Remains(Step(s, e).meta, g)
  {
    var k :| 0 <= k < |s.meta.games| && s.meta.games[k] == g;
    assert SameEntry(g, Step(s, e).meta.games[k]);
  }

  lemma OpenEnds(s: System, e: Event, g: Game)
    requires e.Open? && g in s.meta.games
    ensures Remains(Step(s, e).meta, g)
  {
    assert g in Step(s, e).meta.games && SameEntry(g, g);
  }

  // What an entry on the relay becomes is decided by whether the relay still lists its name.
  lemma {:induction false} RelayEntryEnds(s: System, r: R.Event, g: Game)
    requires Inv(s) && !r.Create? && g in s.meta.games && g.usesRelay
    ensures Remains(RelayStep(s, r).meta, g) <==> g.name in Names(RelayStep(s, r).relay)
  {
    var t := RelayStep(s, r);
    RelayStepKeeps(s, r);
    FreeOnBoth(t, g.name);
    NamesIs(t.relay, g.name);
    if g.name in Names(t.relay) {
      var h := t.meta.games[HasGame(t.meta.games, g.name)];
      SurvivorIs(s, r, h);
      ByRef(s.meta, g);
      var g' :| g' in s.meta.games && SameEntry(g', h);
      ByRef(s.meta, g');
    } else if Remains(t.meta, g) {
      var h :| h in t.meta.games && SameEntry(g, h);
      ListedOnRelay(t, h);
      assert false;
    }
  }

  lemma NamesIs(r: R.Relay, name: Text)
    ensures name in Names(r) <==> R.Find(r.games, name) < |r.games|
  {
  }

  lemma {:induction false} SurvivorIs(s: System, r: R.Event, h: Game)
    requires Inv(s) && !r.Create? && h in RelayStep(s, r).meta.games
    ensures exists g :: g in s.meta.games && SameEntry(g, h)
  {
    if r.Hello? {
      HelloStep(s, r.version, r.name, r.password, h);
    } else {
      QuietRelayStep(s, r, AtRelay(r), h);
    }
  }

  lemma {:induction false} SelfHostedRemain(s: System, r: R.Event, g: Game)
    requires Inv(s) && !r.Create? && g in s.meta.games && !g.usesRelay
    ensures Remains(RelayStep(s, r).meta, g)
  {
    if r.Hello? {
      HelloReports(s, r.version, r.name, r.password);
      var k :| 0 <= k < |s.meta.games| && s.meta.games[k] == g;
      assert SameEntry(g, RelayStep(s, r).meta.games[k]);
    } else {
      RelayTheorems.StepSettles(s.relay, r);
      RelayInvariant.StepKeeps(s.relay, r);
      SelfHostedRemainOf(s.meta, s.relay.wire.log, R.Step(s.relay, r), g);
      assert SameEntry(g, g);
    }
  }

  lemma {:induction false} SelfHostedRemainOf(m: Meta, log: seq<R.Note>, u: R.Relay, g: Game)
    requires Agree(m, log) && RelayInvariant.Inv(u) && log <= u.wire.log && g in m.games && !g.usesRelay
    requires forall k :: |log| <= k < |u.wire.log| ==> RelayTheorems.Dull(u.wire.log[k])
    ensures g in DeliverAll(m, u.wire.log[|log|..]).games
  {
    var notes := u.wire.log[|log|..];
    assert log + notes == u.wire.log;
    forall n ensures R.PhaseOf(log + notes, n) != R.Broken {
      assert R.PhaseOf(u.wire.log, n) == R.Status(u.games, n);
    }
    SelfHostedStay(m, log, notes, g);
  }

  lemma {:induction false} KickEnds(s: System, name: Text, g: Game)
    requires Inv(s) && g in s.meta.games
    ensures Remains(Step(s, Kick(name)).meta, g) <==> name != g.name
  {
    var i := HasGame(s.meta.games, name);
    ByRef(s.meta, g);
    if i == |s.meta.games| {
      assert SameEntry(g, g);
    } else if s.meta.games[i].usesRelay {
      RemovedByReport(s, i);
      KickOnRelayEnds(s, name, g);
    } else {
      RemovalEnds(s.meta, i, g);
    }
  }

  lemma {:induction false} KickOnRelayEnds(s: System, name: Text, g: Game)
    requires Inv(s) && g in s.meta.games && OnRelay(s.meta, name)
    ensures Remains(RelayStep(s, R.Remove(name)).meta, g) <==> name != g.name
  {
    ByRef(s.meta, g);
    if g.usesRelay {
      RelayEntryEnds(s, R.Remove(name), g);
      RemoveTakesOne(s.relay, name, g.name);
      ListedOnRelay(s, g);
      FreeOnBoth(s, g.name);
      NamesIs(s.relay, g.name);
    } else {
      SelfHostedRemain(s, R.Remove(name), g);
    }
  }

  lemma RemoveTakesOne(r: R.Relay, name: Text, n: Text)
    requires RelayInvariant.DistinctNames(r.games)
    ensures n in Names(R.Step(r, R.Remove(name))) <==> n in Names(r) && n != name
  {
    var i, t := R.Find(r.games, name), R.Step(r, R.Remove(name));
    NamesIs(r, n);
    NamesIs(t, n);
    if i < |r.games| {
      assert t.games == R.Without(r.games, i);
      RelayInvariant.StatusWithout(r.games, i, n);
    }
  }

  // In every run, an entry of the metaserver's list lasts until something ends it, and nothing else ends it;
  // and what was not there before has been opened, in its initial state, under a name that was free.
  lemma {:induction false} EntriesComeAndGo(es: seq<Event>, e: Event)
    ensures
      var s, t := Run(es), Step(Run(es), e);
      && (forall g :: g in s.meta.games ==> (Remains(t.meta, g) <==> !Ends(e, t, g)))
      && (forall h :: h in t.meta.games ==> Opens(s.meta, e, h) || exists g :: g in s.meta.games && SameEntry(g, h))
  {
    var s, t := Run(es), Step(Run(es), e);
    RunKeepsAgreement(es);
    forall g | g in s.meta.games ensures Remains(t.meta, g) <==> !Ends(e, t, g) { StepEnds(s, e, g); }
    forall h | h in t.meta.games ensures Opens(s.meta, e, h) || exists g :: g in s.meta.games && SameEntry(g, h) {
      StepExplained(s, e, h);
      if !Opens(s.meta, e, h) {
        var g :| Continues(s, e, t, g, h);
        assert g in s.meta.games && SameEntry(g, h);
      }
    }
  }

  lemma {:induction false} StepEnds(s: System, e: Event, g: Game)
    requires Inv(s) && g in s.meta.games
    ensures Remains(Step(s, e).meta, g) <==> !Ends(e, Step(s, e), g)
  {
    if e.Open? {
      OpenEnds(s, e, g);
    } else if e.Kick? {
      KickEnds(s, e.name, g);
    } else if e.AtRelay? {
      AtRelayEnds(s, e.e, g);
    } else {
      MetaStepEnds(s, e, g);
    }
  }

  lemma {:induction false} AtRelayEnds(s: System, r: R.Event, g: Game)
    requires Inv(s) && g in s.meta.games
    ensures Remains(Step(s, AtRelay(r)).meta, g) <==> !Ends(AtRelay(r), Step(s, AtRelay(r)), g)
  {
    if r.Create? || r.Remove? {
      NothingEnds(s, g);
      assert Step(s, AtRelay(r)) == s;
    } else {
      RelayStepEnds(s, r, g);
      assert Step(s, AtRelay(r)) == RelayStep(s, r);
    }
  }

  lemma {:induction false} NothingEnds(s: System, g: Game)
    requires Inv(s) && g in s.meta.games
    ensures Remains(s.meta, g) && (g.usesRelay ==> g.name in Names(s.relay))
  {
    assert SameEntry(g, g);
    if g.usesRelay { RelayEntryIsThere(s, g); }
  }

  lemma {:induction false} RelayStepEnds(s: System, r: R.Event, g: Game)
    requires Inv(s) && !r.Create? && g in s.meta.games
    ensures Remains(RelayStep(s, r).meta, g) <==> !g.usesRelay || g.name in Names(RelayStep(s, r).relay)
  {
    if g.usesRelay { RelayEntryEnds(s, r, g); } else { SelfHostedRemain(s, r, g); }
  }

  lemma {:induction false} RelayEntryIsThere(s: System, g: Game)
    requires Inv(s) && g in s.meta.games && g.usesRelay
    ensures g.name in Names(s.relay)
  {
    ListedOnRelay(s, g);
    FreeOnBoth(s, g.name);
    NamesIs(s.relay, g.name);
  }

  // GAME_OPEN is granted exactly if no listed game has the name.
  lemma {:induction false} OpeningIsDecided(es: seq<Event>, host: Text, name: Text, legacy: bool, password: Text)
    ensures
      var s, t := Run(es), Step(Run(es), Open(host, name, legacy, password));
      if exists g :: g in s.meta.games && g.name == name then t == s
      else
        && t.meta.games == s.meta.games + [Game(s.meta.made, name, host, !legacy, InitialSetup)]
        && Names(t.relay) == Names(s.relay) + if legacy then {} else {name}
  {
    var s, t := Run(es), Step(Run(es), Open(host, name, legacy, password));
    RunKeepsAgreement(es);
    FreeOnBoth(s, name);
    if HasGame(s.meta.games, name) == |s.meta.games| && !legacy { CreatedNames(s.relay, name, password); }
  }

  lemma CreatedNames(r: R.Relay, name: Text, password: Text)
    requires R.Find(r.games, name) == |r.games|
    ensures Names(R.Step(r, R.Create(name, password))) == Names(r) + {name}
  {
    var t := R.Step(r, R.Create(name, password));
    forall n ensures n in Names(t) <==> n in Names(r) || n == name {
      NamesIs(r, n);
      NamesIs(t, n);
      AppendedIsFound(r.games, t.games, n);
    }
  }

  lemma AppendedIsFound(games: seq<R.Game>, more: seq<R.Game>, n: Text)
    requires |more| == |games| + 1 && more[..|games|] == games
    ensures R.Find(more, n) < |more| <==> R.Find(games, n) < |games| || more[|games|].name == n
  {
    assert forall j :: 0 <= j < |games| ==> more[j] == games[j];
  }
}
