/** The metaserver's game list (wlms/client.go, wlms/game.go, wlms/server.go) and the relay, joined
    by their RPC calls. The calls are reliable and synchronous: what the relay reports during a step
    has reached the metaserver when the step ends. */
module Agreement {
  import opened GoText
  import opened RelayInvariant
  import R = RelayModel
  import RelayTheorems
  import Search

  datatype GameState = InitialSetup | NotConnectable | Connectable | Running

  // A listed *Game of the metaserver; ref is its identity.
  datatype Game = Game(ref: nat, name: Text, host: Text, usesRelay: bool, state: GameState)

  datatype Meta = Meta(games: seq<Game>, made: nat)

  datatype System = System(meta: Meta, relay: R.Relay)

  datatype Event =
    | Open(host: Text, name: Text, legacy: bool, password: Text)    // GAME_OPEN
    | Start(ref: nat)                                               // GAME_START by a game's host
    | HostLeaves(ref: nat)                                          // the host leaves its game
    | Ping(ref: nat, answered: bool, hostThere: bool)               // doPing on a self-hosted game
    | Kick(name: Text)                                              // CMD kick on a game
    | AtRelay(e: R.Event)                                           // anything the relay does by itself

  // ---------------------------------------------------------------- the metaserver's list

  function HasGame(games: seq<Game>, name: Text): (i: nat)
    ensures i <= |games| && (i < |games| ==> games[i].name == name)
    ensures forall j :: 0 <= j < i ==> games[j].name != name
  {
    Search.First(games, (g: Game) => g.name == name)
  }

  function FindRef(games: seq<Game>, ref: nat): (i: nat)
    ensures i <= |games| && (i < |games| ==> games[i].ref == ref)
    ensures forall j :: 0 <= j < i ==> games[j].ref != ref
  {
    Search.First(games, (g: Game) => g.ref == ref)
  }

  function AddGame(m: Meta, host: Text, name: Text, usesRelay: bool): Meta {
    Meta(m.games + [Game(m.made, name, host, usesRelay, InitialSetup)], m.made + 1)
  }

  function RemoveGame(m: Meta, ref: nat): Meta {
    var i := FindRef(m.games, ref);
    if i < |m.games| then m.(games := R.Without(m.games, i)) else m
  }

  function SetState(m: Meta, i: nat, state: GameState): Meta
    requires i < |m.games|
  {
    m.(games := m.games[i := m.games[i].(state := state)])
  }

  // The metaserver's GameConnected and GameClosed callbacks.
  function Deliver(m: Meta, note: R.Note): Meta {
    match note
    case Connected(_, name) =>
      var i := HasGame(m.games, name);
      if i < |m.games| then SetState(m, i, Connectable) else m
    case Closed(_, name) =>
      var i := HasGame(m.games, name);
      if i < |m.games| then RemoveGame(m, m.games[i].ref) else m
    case _ => m
  }

  function DeliverAll(m: Meta, notes: seq<R.Note>): Meta
    decreases |notes|
  {
    if notes == [] then m else DeliverAll(Deliver(m, notes[0]), notes[1..])
  }

  // The relay takes a step and the metaserver hears what it reported.
  function RelayStep(s: System, e: R.Event): System {
    var t := R.Step(s.relay, e);
    var heard := if |s.relay.wire.log| <= |t.wire.log| then t.wire.log[|s.relay.wire.log|..] else [];
    System(DeliverAll(s.meta, heard), t)
  }

  // The state changes of doPing.
  function AfterPing(state: GameState, answered: bool): GameState {
    if state == Running then Running
    else if answered then Connectable
    else NotConnectable
  }

  datatype OpenReply = Opened | GameExists | RelayError

  function OpenReplyTo(s: System, name: Text, legacy: bool): OpenReply {
    if HasGame(s.meta.games, name) < |s.meta.games| then GameExists
    else if !legacy && R.Find(s.relay.games, name) < |s.relay.games| then RelayError
    else Opened
  }

  function Step(s: System, e: Event): System {
    match e
    case Open(host, name, legacy, password) =>
      if OpenReplyTo(s, name, legacy) != Opened then s
      else if legacy then s.(meta := AddGame(s.meta, host, name, false))
      else System(AddGame(s.meta, host, name, true), R.Step(s.relay, R.Create(name, password)))
    case Start(ref) =>
      var i := FindRef(s.meta.games, ref);
      if i < |s.meta.games| then s.(meta := SetState(s.meta, i, Running)) else s
    case HostLeaves(ref) =>
      var i := FindRef(s.meta.games, ref);
      if i < |s.meta.games| && !s.meta.games[i].usesRelay then s.(meta := RemoveGame(s.meta, ref)) else s
    case Ping(ref, answered, hostThere) =>
      var i := FindRef(s.meta.games, ref);
      if i == |s.meta.games| || s.meta.games[i].usesRelay then s
      else if !answered && !hostThere then s.(meta := RemoveGame(s.meta, ref))
      else s.(meta := SetState(s.meta, i, AfterPing(s.meta.games[i].state, answered)))
    case Kick(name) =>
      var i := HasGame(s.meta.games, name);
      if i == |s.meta.games| then s
      else
        var t := if s.meta.games[i].usesRelay then RelayStep(s, R.Remove(name)) else s;
        t.(meta := RemoveGame(t.meta, s.meta.games[i].ref))
    case AtRelay(r) => if r.Create? || r.Remove? then s else RelayStep(s, r)
  }

  const START := System(Meta([], 0), R.START)

  function Run(es: seq<Event>): System {
    if es == [] then START else Step(Run(es[..|es| - 1]), es[|es| - 1])
  }

  // ---------------------------------------------------------------- agreement

  ghost predicate MetaOk(m: Meta) {
    && (forall i :: 0 <= i < |m.games| ==> m.games[i].ref < m.made)
    && (forall i, j :: 0 <= i < j < |m.games| ==>
      m.games[i].ref != m.games[j].ref && m.games[i].name != m.games[j].name)
  }

  ghost predicate OnRelay(m: Meta, name: Text) {
    var i := HasGame(m.games, name);
    i < |m.games| && m.games[i].usesRelay
  }

  ghost predicate Offered(m: Meta, name: Text) {
    OnRelay(m, name) && m.games[HasGame(m.games, name)].state == Connectable
  }

  // The metaserver lists a relay game of that name exactly when the relay's reports say it should,
  // and offers it for joining only after its host was reported connected.
  ghost predicate AgreeOn(m: Meta, log: seq<R.Note>, name: Text) {
    var p := R.PhaseOf(log, name);
    && p != R.Broken
    && (OnRelay(m, name) <==> p != R.Absent)
    && (Offered(m, name) ==> p.Hosted?)
  }

  ghost predicate Agree(m: Meta, log: seq<R.Note>) {
    MetaOk(m) && forall n :: AgreeOn(m, log, n)
  }

  ghost predicate Inv(s: System) {
    RelayInvariant.Inv(s.relay) && Agree(s.meta, s.relay.wire.log)
  }

  lemma HasGameAt(games: seq<Game>, n: Text, i: nat)
    requires i <= |games| && (i < |games| ==> games[i].name == n)
    requires forall j :: 0 <= j < i ==> games[j].name != n
    ensures HasGame(games, n) == i
  {
    var f := HasGame(games, n);
    assert !(f < i) && !(i < f);
  }

  lemma FindRefAt(m: Meta, i: nat)
    requires MetaOk(m) && i < |m.games|
    ensures FindRef(m.games, m.games[i].ref) == i
  {
  }

  lemma AddKeeps(m: Meta, host: Text, name: Text, usesRelay: bool, n: Text)
    requires MetaOk(m) && HasGame(m.games, name) == |m.games|
    ensures
      var t := AddGame(m, host, name, usesRelay);
      && MetaOk(t)
      && (OnRelay(t, n) <==> if n == name then usesRelay else OnRelay(m, n))
      && (Offered(t, n) <==> n != name && Offered(m, n))
  {
    var t, f := AddGame(m, host, name, usesRelay), HasGame(m.games, n);
    assert forall j :: 0 <= j < |m.games| ==> t.games[j] == m.games[j];
    HasGameAt(t.games, n, if f < |m.games| || n == name then f else |t.games|);
  }

  lemma HasGameWithout(m: Meta, i: nat, n: Text)
    requires MetaOk(m) && i < |m.games|
    ensures
      var rest, f := R.Without(m.games, i), HasGame(m.games, n);
      HasGame(rest, n) == if n == m.games[i].name then |rest| else if f < i then f else f - 1
  {
    var rest, f := R.Without(m.games, i), HasGame(m.games, n);
    HasGameAt(rest, n, if n == m.games[i].name then |rest| else if f < i then f else f - 1);
  }

  lemma RemoveKeeps(m: Meta, i: nat, n: Text)
    requires MetaOk(m) && i < |m.games|
    ensures
      var t := RemoveGame(m, m.games[i].ref);
      && MetaOk(t)
      && (OnRelay(t, n) <==> n != m.games[i].name && OnRelay(m, n))
      && (Offered(t, n) <==> n != m.games[i].name && Offered(m, n))
  {
    FindRefAt(m, i);
    HasGameWithout(m, i, n);
    var t := RemoveGame(m, m.games[i].ref);
    assert t.games == R.Without(m.games, i);
  }

  lemma SetStateKeeps(m: Meta, i: nat, state: GameState, n: Text)
    requires MetaOk(m) && i < |m.games|
    ensures
      var t := SetState(m, i, state);
      && MetaOk(t)
      && HasGame(t.games, n) == HasGame(m.games, n)
      && (OnRelay(t, n) <==> OnRelay(m, n))
      && (Offered(t, n) ==> Offered(m, n) || (n == m.games[i].name && state == Connectable))
  {
    HasGameAt(SetState(m, i, state).games, n, HasGame(m.games, n));
  }

  // ---------------------------------------------------------------- reports

  // A report that does not break the relay's own account keeps the two in agreement.
  lemma DeliverOn(m: Meta, log: seq<R.Note>, note: R.Note, n: Text)
    requires Agree(m, log) && !note.Created?
    requires note.Connected? || note.Closed? ==> R.PhaseOf(log + [note], note.name) != R.Broken
    ensures MetaOk(Deliver(m, note)) && AgreeOn(Deliver(m, note), log + [note], n)
  {
    assert (log + [note])[..|log|] == log;
    assert AgreeOn(m, log, n);
    match note
    case Connected(_, name) =>
      assert AgreeOn(m, log, name);
      SetStateKeeps(m, HasGame(m.games, name), Connectable, n);
    case Closed(_, name) =>
      assert AgreeOn(m, log, name);
      RemoveKeeps(m, HasGame(m.games, name), n);
    case _ =>
  }

  lemma DeliverKeeps(m: Meta, log: seq<R.Note>, note: R.Note)
    requires Agree(m, log) && !note.Created?
    requires note.Connected? || note.Closed? ==> R.PhaseOf(log + [note], note.name) != R.Broken
    ensures Agree(Deliver(m, note), log + [note])
  {
    DeliverOn(m, log, note, []);
    forall n ensures AgreeOn(Deliver(m, note), log + [note], n) {
      DeliverOn(m, log, note, n);
    }
  }

  lemma {:induction false} BrokenStays(log: seq<R.Note>, more: seq<R.Note>, n: Text)
    requires R.PhaseOf(log, n) == R.Broken
    ensures R.PhaseOf(log + more, n) == R.Broken
    decreases |more|
  {
    if more == [] {
      assert log + more == log;
    } else {
      BrokenStays(log, more[..|more| - 1], n);
      assert (log + more)[..|log + more| - 1] == log + more[..|more| - 1];
    }
  }

  lemma {:induction false} DeliverAllKeeps(m: Meta, log: seq<R.Note>, notes: seq<R.Note>)
    requires Agree(m, log) && (forall k :: 0 <= k < |notes| ==> !notes[k].Created?)
    requires forall n :: R.PhaseOf(log + notes, n) != R.Broken
    ensures Agree(DeliverAll(m, notes), log + notes)
    decreases |notes|
  {
    if notes == [] {
      assert log + notes == log;
    } else {
      var note, rest := notes[0], notes[1..];
      assert log + notes == log + [note] + rest;
      if (note.Connected? || note.Closed?) && R.PhaseOf(log + [note], note.name) == R.Broken {
        BrokenStays(log + [note], rest, note.name);
      }
      DeliverKeeps(m, log, note);
      DeliverAllKeeps(Deliver(m, note), log + [note], rest);
    }
  }

  // ---------------------------------------------------------------- steps

  // All a greeting can report is that a host has connected.
  ghost predicate Reports(log: seq<R.Note>, more: seq<R.Note>) {
    log <= more && forall k :: |log| <= k < |more| ==> !more[k].Created?
  }

  lemma {:induction false} ArrivalOnlyReports(r: R.Relay, i: nat, c: R.Conn, version: byte, password: Text)
    requires i < |r.games|
    ensures Reports(r.wire.log, R.AddClient(r, i, c, version, password).wire.log)
  {
  }

  lemma {:induction false} HelloOnlyReports(r: R.Relay, version: byte, name: Text, password: Text)
    ensures Reports(r.wire.log, R.Greet(r, version, name, password).wire.log)
  {
    var s, i := r.(accepted := r.accepted + 1), R.Find(r.games, name);
    if i < |r.games| { ArrivalOnlyReports(s, i, r.accepted, version, password); }
  }

  // A relay step only adds to the log, and creates nothing unless the metaserver asked for it.
  lemma {:induction false} RelayOnlyReports(r: R.Relay, e: R.Event)
    requires !e.Create?
    ensures Reports(r.wire.log, R.Step(r, e).wire.log)
  {
    if e.Hello? {
      HelloOnlyReports(r, e.version, e.name, e.password);
    } else {
      RelayTheorems.StepSettles(r, e);
      assert forall k :: |r.wire.log| <= k < |R.Step(r, e).wire.log| ==> RelayTheorems.Dull(R.Step(r, e).wire.log[k]);
    }
  }

  // The metaserver hears what the relay r has reported since log.
  lemma {:induction false} Heard(m: Meta, log: seq<R.Note>, r: R.Relay)
    requires Agree(m, log) && RelayInvariant.Inv(r) && log <= r.wire.log
    requires forall k :: |log| <= k < |r.wire.log| ==> !r.wire.log[k].Created?
    ensures Agree(DeliverAll(m, r.wire.log[|log|..]), r.wire.log)
  {
    var more := r.wire.log[|log|..];
    assert log + more == r.wire.log;
    forall n ensures R.PhaseOf(log + more, n) != R.Broken {
      assert R.PhaseOf(r.wire.log, n) == R.Status(r.games, n);
    }
    DeliverAllKeeps(m, log, more);
  }

  lemma {:induction false} RelayStepKeeps(s: System, e: R.Event)
    requires Inv(s) && !e.Create?
    ensures Inv(RelayStep(s, e))
  {
    RelayOnlyReports(s.relay, e);
    StepKeeps(s.relay, e);
    Heard(s.meta, s.relay.wire.log, R.Step(s.relay, e));
  }

  // A name is free on the relay whenever it is free on the metaserver.
  lemma FreeOnBoth(s: System, name: Text)
    requires Inv(s)
    ensures OnRelay(s.meta, name) <==> R.Find(s.relay.games, name) < |s.relay.games|
    ensures Offered(s.meta, name) ==> s.relay.games[R.Find(s.relay.games, name)].host.Some?
  {
    assert AgreeOn(s.meta, s.relay.wire.log, name);
    assert R.PhaseOf(s.relay.wire.log, name) == R.Status(s.relay.games, name);
  }

  lemma OpenKeepsMeta(s: System, host: Text, name: Text, n: Text)
    requires Inv(s) && HasGame(s.meta.games, name) == |s.meta.games|
    ensures
      var log := R.Tell(s.relay.wire, R.Created(s.relay.created, name)).log;
      var t := AddGame(s.meta, host, name, true);
      MetaOk(t) && AgreeOn(t, log, n)
  {
    Told(s.relay.wire, R.Created(s.relay.created, name));
    AddKeeps(s.meta, host, name, true, n);
    assert AgreeOn(s.meta, s.relay.wire.log, n) && AgreeOn(s.meta, s.relay.wire.log, name);
  }

  lemma OpenKeeps(s: System, host: Text, name: Text, password: Text)
    requires Inv(s) && HasGame(s.meta.games, name) == |s.meta.games|
    ensures Inv(System(AddGame(s.meta, host, name, true), R.Step(s.relay, R.Create(name, password))))
  {
    FreeOnBoth(s, name);
    StepKeeps(s.relay, R.Create(name, password));
    OpenKeepsMeta(s, host, name, []);
    forall n { OpenKeepsMeta(s, host, name, n); }
  }

  // A change of the metaserver's list that touches no relay game, or only sets it running.
  lemma MetaStepKeeps(s: System, t: Meta)
    requires Inv(s) && MetaOk(t)
    requires forall n :: OnRelay(t, n) <==> OnRelay(s.meta, n)
    requires forall n :: Offered(t, n) ==> Offered(s.meta, n)
    ensures Inv(s.(meta := t))
  {
    forall n ensures AgreeOn(t, s.relay.wire.log, n) {
      assert AgreeOn(s.meta, s.relay.wire.log, n);
    }
  }

  lemma LegacyOpenKeeps(s: System, host: Text, name: Text)
    requires Inv(s) && HasGame(s.meta.games, name) == |s.meta.games|
    ensures Inv(s.(meta := AddGame(s.meta, host, name, false)))
  {
    AddKeeps(s.meta, host, name, false, []);
    forall n { AddKeeps(s.meta, host, name, false, n); }
    MetaStepKeeps(s, AddGame(s.meta, host, name, false));
  }

  lemma LegacyRemoveKeeps(s: System, i: nat)
    requires Inv(s) && i < |s.meta.games| && !s.meta.games[i].usesRelay
    ensures Inv(s.(meta := RemoveGame(s.meta, s.meta.games[i].ref)))
  {
    RemoveKeeps(s.meta, i, []);
    HasGameAt(s.meta.games, s.meta.games[i].name, i);
    forall n { RemoveKeeps(s.meta, i, n); }
    MetaStepKeeps(s, RemoveGame(s.meta, s.meta.games[i].ref));
  }

  lemma SetStateStepKeeps(s: System, i: nat, state: GameState)
    requires Inv(s) && i < |s.meta.games| && (s.meta.games[i].usesRelay ==> state != Connectable)
    ensures Inv(s.(meta := SetState(s.meta, i, state)))
  {
    SetStateKeeps(s.meta, i, state, []);
    HasGameAt(s.meta.games, s.meta.games[i].name, i);
    forall n { SetStateKeeps(s.meta, i, state, n); }
    MetaStepKeeps(s, SetState(s.meta, i, state));
  }

  // The order that a hosted game be removed comes back as a report, so nothing is left to remove.
  lemma {:induction false} RemovedByReport(s: System, i: nat)
    requires Inv(s) && i < |s.meta.games| && s.meta.games[i].usesRelay
    ensures var t := RelayStep(s, R.Remove(s.meta.games[i].name)); RemoveGame(t.meta, s.meta.games[i].ref) == t.meta
  {
    var name, ref := s.meta.games[i].name, s.meta.games[i].ref;
    var t := RelayStep(s, R.Remove(name));
    RelayStepKeeps(s, R.Remove(name));
    FreeOnBoth(t, name);
    RemoveForgets(s, name);
    StepOnlyRemoves(s, R.Remove(name), ref, name);
    NotListedAnyMore(t.meta, ref, name);
  }

  lemma {:induction false} StepOnlyRemoves(s: System, e: R.Event, ref: nat, name: Text)
    requires Keeps(s.meta, ref, name) && !e.Create?
    ensures Keeps(RelayStep(s, e).meta, ref, name)
  {
    RelayOnlyReports(s.relay, e);
    DeliverAllOnlyRemoves(s.meta, R.Step(s.relay, e).wire.log[|s.relay.wire.log|..], ref, name);
  }

  // An entry of that identity would make the name one of the relay's.
  lemma NotListedAnyMore(m: Meta, ref: nat, name: Text)
    requires MetaOk(m) && Keeps(m, ref, name) && !OnRelay(m, name)
    ensures RemoveGame(m, ref) == m
  {
    var k := FindRef(m.games, ref);
    if k < |m.games| { HasGameAt(m.games, name, k); }
  }

  lemma RemoveForgets(s: System, name: Text)
    requires RelayInvariant.Inv(s.relay)
    ensures R.Find(R.Step(s.relay, R.Remove(name)).games, name) == |R.Step(s.relay, R.Remove(name)).games|
  {
    var i := R.Find(s.relay.games, name);
    if i < |s.relay.games| {
      StatusWithout(s.relay.games, i, name);
    }
  }

  // Reports never change what an entry is called or where it runs.
  ghost predicate Keeps(m: Meta, ref: nat, name: Text) {
    forall k :: 0 <= k < |m.games| && m.games[k].ref == ref ==> m.games[k].name == name && m.games[k].usesRelay
  }

  lemma {:induction false} DeliverAllOnlyRemoves(m: Meta, notes: seq<R.Note>, ref: nat, name: Text)
    requires Keeps(m, ref, name)
    ensures Keeps(DeliverAll(m, notes), ref, name)
    decreases |notes|
  {
    if notes != [] {
      DeliverAllOnlyRemoves(Deliver(m, notes[0]), notes[1..], ref, name);
    }
  }

  lemma StepKeepsAgreement(s: System, e: Event)
    requires Inv(s)
    ensures Inv(Step(s, e))
  {
    match e
    case Open(host, name, legacy, password) =>
      if OpenReplyTo(s, name, legacy) == Opened {
        if legacy { LegacyOpenKeeps(s, host, name); } else { OpenKeeps(s, host, name, password); }
      }
    case Start(ref) =>
      var i := FindRef(s.meta.games, ref);
      if i < |s.meta.games| { SetStateStepKeeps(s, i, Running); }
    case HostLeaves(ref) =>
      var i := FindRef(s.meta.games, ref);
      if i < |s.meta.games| && !s.meta.games[i].usesRelay { LegacyRemoveKeeps(s, i); }
    case Ping(ref, answered, hostThere) =>
      var i := FindRef(s.meta.games, ref);
      if i < |s.meta.games| && !s.meta.games[i].usesRelay {
        LegacyRemoveKeeps(s, i);
        SetStateStepKeeps(s, i, AfterPing(s.meta.games[i].state, answered));
      }
    case Kick(name) =>
      var i := HasGame(s.meta.games, name);
      if i < |s.meta.games| {
        if s.meta.games[i].usesRelay {
          RelayStepKeeps(s, R.Remove(name));
          RemovedByReport(s, i);
        } else {
          LegacyRemoveKeeps(s, i);
        }
      }
    case AtRelay(r) =>
      if !r.Create? && !r.Remove? { RelayStepKeeps(s, r); }
  }

  lemma {:induction false} RunKeepsAgreement(es: seq<Event>)
    ensures Inv(Run(es))
  {
    if es == [] {
      RelayInvariant.RunKeeps([]);
      forall n ensures AgreeOn(START.meta, START.relay.wire.log, n) {}
    } else {
      RunKeepsAgreement(es[..|es| - 1]);
      StepKeepsAgreement(Run(es[..|es| - 1]), es[|es| - 1]);
    }
  }

  // ---------------------------------------------------------------- theorems

  function RelayNames(m: Meta): set<Text> {
    set i | 0 <= i < |m.games| && m.games[i].usesRelay :: m.games[i].name
  }

  function Names(r: R.Relay): set<Text> {
    set i | 0 <= i < |r.games| :: r.games[i].name
  }

  // The host of the relay's game of that name is connected to it.
  ghost predicate HostThere(r: R.Relay, name: Text) {
    exists k :: 0 <= k < |r.games| && r.games[k].name == name && r.games[k].host.Some?
  }

  // In every run, after every step: the relay games the metaserver lists are exactly the games on
  // the relay, names are unique on both sides, and a relay game is offered for joining only while
  // its host is connected to the relay.
  lemma {:induction false} ServersAgree(es: seq<Event>)
    ensures
      var s := Run(es);
      && RelayNames(s.meta) == Names(s.relay)
      && (forall i, j :: 0 <= i < j < |s.meta.games| ==> s.meta.games[i].name != s.meta.games[j].name)
      && (forall i, j :: 0 <= i < j < |s.relay.games| ==> s.relay.games[i].name != s.relay.games[j].name)
      && (forall i :: 0 <= i < |s.meta.games| && s.meta.games[i].usesRelay && s.meta.games[i].state == Connectable ==>
            HostThere(s.relay, s.meta.games[i].name))
  {
    RunKeepsAgreement(es);
    AgreementMeans(Run(es));
  }

  // "This should not happen", and it does not: in no run is GAME_OPEN answered with RELAY_ERROR,
  // nor does the relay fail to find a game it is told to remove.
  lemma RelayNeverRefuses(es: seq<Event>, name: Text, legacy: bool)
    ensures
      var s := Run(es);
      && OpenReplyTo(s, name, legacy) != RelayError
      && (OnRelay(s.meta, name) ==> R.Find(s.relay.games, name) < |s.relay.games|)
  {
    RunKeepsAgreement(es);
    FreeOnBoth(Run(es), name);
  }

  // What is left of the relay games when a list entry is dropped.
  lemma {:induction false} NamesWithout(m: Meta, i: nat)
    requires MetaOk(m) && i < |m.games|
    ensures
      var rest := m.(games := R.Without(m.games, i));
      RelayNames(rest) == RelayNames(m) - if m.games[i].usesRelay then {m.games[i].name} else {}
  {
    var rest := m.(games := R.Without(m.games, i));
    var expected := RelayNames(m) - if m.games[i].usesRelay then {m.games[i].name} else {};
    forall n ensures n in RelayNames(rest) <==> n in expected {
      NameWithout(m, i, n);
    }
  }

  lemma {:induction false} NameWithout(m: Meta, i: nat, n: Text)
    requires MetaOk(m) && i < |m.games|
    ensures
      var rest := m.(games := R.Without(m.games, i));
      n in RelayNames(rest) <==> n in RelayNames(m) && !(m.games[i].usesRelay && n == m.games[i].name)
  {
    var rest := m.(games := R.Without(m.games, i));
    if n in RelayNames(rest) {
      var k :| 0 <= k < |rest.games| && rest.games[k].usesRelay && rest.games[k].name == n;
      var j := if k < i then k else k + 1;
      assert m.games[j] == rest.games[k] && j != i;
    }
    if n in RelayNames(m) && !(m.games[i].usesRelay && n == m.games[i].name) { NameRemains(m, i, n); }
  }

  lemma {:induction false} NameRemains(m: Meta, i: nat, n: Text)
    requires i < |m.games| && n in RelayNames(m) && !(m.games[i].usesRelay && n == m.games[i].name)
    ensures n in RelayNames(m.(games := R.Without(m.games, i)))
  {
    var k :| 0 <= k < |m.games| && m.games[k].usesRelay && m.games[k].name == n;
    assert k != i;
    assert R.Without(m.games, i)[if k < i then k else k - 1] == m.games[k];
  }

  // The weekly cleanup drops a list entry without telling the relay: the servers still agree
  // afterwards -- on the names, and on everything ServersAgree says -- exactly when the entry was a
  // self-hosted game.
  lemma {:induction false} CleanupAgreesIffSelfHosted(es: seq<Event>, i: nat)
    requires i < |Run(es).meta.games|
    ensures
      var s := Run(es);
      var m := RemoveGame(s.meta, s.meta.games[i].ref);
      && (Agree(m, s.relay.wire.log) <==> !s.meta.games[i].usesRelay)
      && (RelayNames(m) == Names(s.relay) <==> !s.meta.games[i].usesRelay)
  {
    RunKeepsAgreement(es);
    ServersAgree(es);
    CleanupOf(Run(es).meta, i);
    CleanupDisagrees(Run(es), i);
    if !Run(es).meta.games[i].usesRelay { LegacyRemoveKeeps(Run(es), i); }
  }

  // The relay's reports still speak of the game.
  lemma {:induction false} CleanupDisagrees(s: System, i: nat)
    requires Inv(s) && i < |s.meta.games|
    ensures Agree(RemoveGame(s.meta, s.meta.games[i].ref), s.relay.wire.log) ==> !s.meta.games[i].usesRelay
  {
    var name := s.meta.games[i].name;
    HasGameAt(s.meta.games, name, i);
    RemoveKeeps(s.meta, i, name);
    assert AgreeOn(s.meta, s.relay.wire.log, name);
    if Agree(RemoveGame(s.meta, s.meta.games[i].ref), s.relay.wire.log) {
      assert AgreeOn(RemoveGame(s.meta, s.meta.games[i].ref), s.relay.wire.log, name);
    }
  }

  lemma CleanupOf(m: Meta, i: nat)
    requires MetaOk(m) && i < |m.games|
    ensures RelayNames(RemoveGame(m, m.games[i].ref)) == RelayNames(m) <==> !m.games[i].usesRelay
  {
    NamesWithout(m, i);
    FindRefAt(m, i);
    if m.games[i].usesRelay { assert m.games[i].name in RelayNames(m); }
  }

  // What agreement means once it is known of some list and the relay.
  lemma {:induction false} AgreementMeans(s: System)
    requires Inv(s)
    ensures RelayNames(s.meta) == Names(s.relay)
    ensures
      && (forall i, j :: 0 <= i < j < |s.meta.games| ==> s.meta.games[i].name != s.meta.games[j].name)
      && (forall i, j :: 0 <= i < j < |s.relay.games| ==> s.relay.games[i].name != s.relay.games[j].name)
    ensures
      forall i :: 0 <= i < |s.meta.games| && s.meta.games[i].usesRelay && s.meta.games[i].state == Connectable ==>
        HostThere(s.relay, s.meta.games[i].name)
  {
    forall i | 0 <= i < |s.meta.games| && s.meta.games[i].usesRelay
      ensures s.meta.games[i].name in Names(s.relay)
      ensures s.meta.games[i].state == Connectable ==> HostThere(s.relay, s.meta.games[i].name)
    {
      HasGameAt(s.meta.games, s.meta.games[i].name, i);
      FreeOnBoth(s, s.meta.games[i].name);
    }
    forall k | 0 <= k < |s.relay.games| ensures s.relay.games[k].name in RelayNames(s.meta) {
      FindIs(s.relay.games, k);
      FreeOnBoth(s, s.relay.games[k].name);
    }
  }
}
