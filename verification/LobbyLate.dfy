/** Packets that are still handled after their connection has been closed (wlms/client.go, whose loop works
    off what was buffered). They are outside the runs of LobbyModel; here is what goes wrong, and when. */
module LobbyLate {
  import opened GoText
  import opened LobbyModel
  import opened LobbyInvariant
  import opened LobbySteps
  import opened LobbyScans
  import opened LobbyTheorems
  import FreeName

  // r has been disconnected, and is still listed.
  ghost predicate Late(s: Lobby, r: Ref) {
    r < |s.conns| && s.conns[r].phase == Gone && s.conns[r].perm != Irc && r in s.listed
  }

  // The name r bears once the command has been handled.
  function NameAfter(me: Client, cmd: Command): Text {
    match cmd
    case Login(_, name, _, _, _, _, _) => name
    case CheckPassword(_, name, _, _) => name
    case Malformed(_, name, _) => if name.Some? then name.value else me.name
    case _ => me.name
  }

  // A legacy LOGIN with the right password.
  predicate LegacyLogin(db: Db, cmd: Command) {
    && cmd.Login? && Supported(cmd.version) && cmd.registered && cmd.version < BUILD20 && cmd.nonce.Some?
    && !cmd.banned && cmd.name in db.users && PasswordCorrect(db, cmd.name, cmd.nonce.value)
  }

  function PermAfter(db: Db, me: Client, cmd: Command): Perm {
    if LegacyLogin(db, cmd) then Permissions(db, cmd.name) else me.perm
  }

  // What a late command leaves behind: r alone has changed, and bears the name it asked for.
  ghost predicate Renames(db: Db, s: Lobby, r: Ref, cmd: Command, t: Lobby) {
    && |t.conns| == |s.conns| && t.listed == s.listed
    && At(t, r).name == NameAfter(At(s, r), cmd) && At(t, r).perm == PermAfter(db, At(s, r), cmd)
    && forall x :: x != r ==> At(t, x).name == At(s, x).name && At(t, x).perm == At(s, x).perm
  }

  // The search finds r itself, and then notices that r is not in the handshake.
  lemma LateSearch(db: Db, s: Lobby, r: Ref, registered: bool)
    requires Late(s, r) && s.conns[r].pending == None
    ensures
      var t := FindReplaceCandidates(db, s, r, registered);
      && |t.conns| == |s.conns| && t.listed == s.listed
      && At(t, r).name == At(s, r).name && At(t, r).perm == At(s, r).perm
      && forall x :: x != r ==> At(t, x) == At(s, x)
  {
    var me := s.conns[r];
    BestIs(s, s.listed, me.nonce, me.name);
    assert FindClientsToReplace(s, me.nonce, me.name) != [];
  }

  // The part of a LOGIN behind its checks.
  lemma LateGoesOn(db: Db, s: Lobby, r: Ref, cmd: Command)
    requires GoodDb(db) && Late(s, r) && s.conns[r].pending == None && cmd.Login?
    ensures
      var t := LoginGoesOn(db, s, r, cmd);
      && |t.conns| == |s.conns| && t.listed == s.listed && At(t, r).name == At(s, r).name
      && At(t, r).perm == (if cmd.registered && cmd.version < BUILD20
                              && PasswordCorrect(db, At(s, r).name, At(s, r).nonce)
                           then Permissions(db, At(s, r).name) else At(s, r).perm)
      && forall x :: x != r ==> At(t, x) == At(s, x)
  {
    LateSearch(db, s, r, false);
    LateSearch(db, Put(s, r, s.conns[r].(perm := Permissions(db, s.conns[r].name))), r, true);
  }

  lemma LateLogin(db: Db, s: Lobby, r: Ref, cmd: Command)
    requires GoodDb(db) && Late(s, r) && s.conns[r].pending == None && cmd.Login?
    ensures Renames(db, s, r, cmd, HandleLogin(db, s, r, cmd))
  {
    LoginIs(db, s, r, cmd);
    var t := Put(s, r, AfterLogin(s.conns[r], cmd));
    var hasNonce := cmd.registered || cmd.version >= BUILD20;
    if Supported(cmd.version) && (hasNonce ==> cmd.nonce.Some?) && !cmd.banned &&
      (cmd.registered ==> cmd.name in db.users) {
      LateGoesOn(db, t, r, cmd);
    }
  }

  lemma LateHandle(db: Db, s: Lobby, r: Ref, cmd: Command)
    requires GoodDb(db) && Late(s, r) && s.conns[r].pending == None && !cmd.Leave?
    ensures Renames(db, s, r, cmd, Handle(db, s, r, cmd))
  {
    if cmd.Login? { LateLogin(db, s, r, cmd); }
  }

  // Whoever waits for r is served first; r stays where and what it is.
  lemma {:induction false} LateAnswer(db: Db, s: Lobby, r: Ref, named: bool)
    requires GoodDb(db) && Inv(db, s, None, named) && Late(s, r)
    requires named && s.conns[r].pending.Some? ==> AnswerIsClean(s, s.conns[r].pending.value)
    ensures
      var u := Answer(db, s, r);
      && Inv(db, u, None, named) && Late(u, r) && u.conns[r].pending == None && |u.conns| == |s.conns|
      && u.conns[r].name == s.conns[r].name && u.conns[r].perm == s.conns[r].perm
  {
    AnswerKeeps(db, s, r, named);
    if s.conns[r].pending.Some? {
      assert RecordOk(db, s.conns[r]);
      assert Accounted(s, None, r);
      assert Link(s, None, r, s.conns[r].pending.value);
      assert Waits(db, s, r, s.conns[r].pending.value, named);
      AnswerLeavesListed(db, s, r, s.conns[r].pending.value);
    }
  }

  // p may replace somebody, but not the one that has just answered.
  lemma {:induction false} AnswerLeavesListed(db: Db, s: Lobby, r: Ref, p: Ref)
    requires r < |s.conns| && p < |s.conns| && r != p && s.conns[r].pending == Some(p) && r in s.listed
    ensures r in Answer(db, s, r).listed && At(Answer(db, s, r), r).name == At(s, r).name
  {
    if s.conns[p].candidates.Some? { CheckLeavesAwaited(db, s, p, r); }
  }

  lemma {:induction false} CheckLeavesAwaited(db: Db, s: Lobby, c: Ref, x: Ref)
    requires c < |s.conns| && x < |s.conns| && x != c && s.conns[x].pending.Some? && x in s.listed
    ensures x in CheckCandidates(db, s, c).listed && At(CheckCandidates(db, s, c), x).name == At(s, x).name
    decreases |CandidatesOf(At(s, c))|
  {
    var cs := CandidatesOf(s.conns[c]);
    if s.conns[c].phase == Handshake && cs != [] {
      var t := Put(s, c, Downgrade(db, s.conns[c], At(s, cs[0]).name).(candidates := Some(cs[1..])));
      if At(t, cs[0]).pending.Some? {
        CheckLeavesAwaited(db, t, c, x);
      } else if At(t, cs[0]).phase == Gone {
        TakeOverLeavesOthers(t, c, cs[0], x);
      }
    }
  }

  lemma TakeOverLeavesOthers(t: Lobby, c: Ref, prior: Ref, x: Ref)
    requires c < |t.conns| && x < |t.conns| && x != c && x != prior && x in t.listed
    ensures x in TakeOver(t, c, prior).listed && At(TakeOver(t, c, prior), x).name == At(t, x).name
  {
    StrikeOthers(t.listed, prior);
  }

  // Nobody but r bears the name among the listed players.
  ghost predicate NameFreeFor(s: Lobby, r: Ref, name: Text) {
    forall y :: y in s.listed && y != r && At(s, y).name == name ==> At(s, y).perm == Irc
  }

  lemma RenamedUniqueIff(db: Db, u: Lobby, r: Ref, cmd: Command, t: Lobby)
    requires ListedOk(u) && UniqueNames(u) && Late(u, r)
    requires Renames(db, u, r, cmd, t) && PermAfter(db, At(u, r), cmd) != Irc
    ensures UniqueNames(t) <==> NameFreeFor(u, r, NameAfter(At(u, r), cmd))
  {
    if UniqueNames(t) {
      forall y | y in u.listed && y != r && At(u, y).name == NameAfter(At(u, r), cmd) ensures At(u, y).perm == Irc {
        assert y in t.listed && r in t.listed && At(t, y).name == At(t, r).name;
      }
    }
  }

  // After a valid run, a late packet of a listed client keeps names unique exactly if the name it leaves
  // its sender with is no other listed player's. (Whoever waits for the sender is served first.)
  lemma {:induction false} LatePacketKeepsNamesIff(db: Db, es: seq<Event>, r: Ref, cmd: Command)
    requires
      var s := Run(db, es);
      && GoodDb(db) && ValidRun(db, es) && Late(s, r)
      && (s.conns[r].pending.Some? ==> AnswerIsClean(s, s.conns[r].pending.value))
    ensures
      var s, u := Run(db, es), Answer(db, Run(db, es), r);
      UniqueNames(Step(db, s, Packet(r, cmd))) <==> cmd.Leave? || NameFreeFor(u, r, NameAfter(At(s, r), cmd))
  {
    RunKeeps(db, es);
    LateNamesIff(db, Run(db, es), r, cmd);
  }

  lemma {:induction false} LateNamesIff(db: Db, s: Lobby, r: Ref, cmd: Command)
    requires GoodDb(db) && Inv(db, s, None, true) && Late(s, r)
    requires s.conns[r].pending.Some? ==> AnswerIsClean(s, s.conns[r].pending.value)
    ensures
      var u := Answer(db, s, r);
      UniqueNames(Step(db, s, Packet(r, cmd))) <==> cmd.Leave? || NameFreeFor(u, r, NameAfter(At(s, r), cmd))
  {
    LateAnswer(db, s, r, true);
    var u := Answer(db, s, r);
    assert Step(db, s, Packet(r, cmd)) == Handle(db, u, r, cmd);
    if cmd.Leave? {
      LeaveKeeps(db, u, r, true);
    } else {
      LateHandle(db, u, r, cmd);
      RenamedUniqueIff(db, u, r, cmd, Handle(db, u, r, cmd));
    }
  }

  // Nobody listed has rights the database does not grant for the name.
  ghost predicate RightsOk(db: Db, s: Lobby) {
    forall x :: x in s.listed && At(s, x).perm != Irc ==> PermOk(db, At(s, x))
  }

  // After any possible run, a late packet of a listed client leaves everybody with the database's rights
  // exactly if the sender ends up with no rights, or those of the name it ends up with.
  lemma {:induction false} LatePacketKeepsRightsIff(db: Db, es: seq<Event>, r: Ref, cmd: Command)
    requires GoodDb(db) && PossibleRun(db, es) && Late(Run(db, es), r)
    ensures
      var s := Run(db, es);
      var me := At(s, r);
      RightsOk(db, Step(db, s, Packet(r, cmd))) <==>
      cmd.Leave? || PermAfter(db, me, cmd) in {Unregistered, Permissions(db, NameAfter(me, cmd))}
  {
    PossibleRunKeeps(db, es);
    LateRightsIff(db, Run(db, es), r, cmd);
  }

  lemma {:induction false} CoreHasRights(db: Db, s: Lobby, named: bool)
    requires Inv(db, s, None, named)
    ensures RightsOk(db, s)
  {
    forall x | x in s.listed && At(s, x).perm != Irc ensures PermOk(db, At(s, x)) {
      assert s.conns[x].joined && RecordOk(db, s.conns[x]);
    }
  }

  lemma RenamedRightsIff(db: Db, u: Lobby, r: Ref, cmd: Command, t: Lobby)
    requires RightsOk(db, u) && Late(u, r) && Renames(db, u, r, cmd, t) && PermAfter(db, At(u, r), cmd) != Irc
    ensures
      var p := PermAfter(db, At(u, r), cmd);
      RightsOk(db, t) <==> p == Unregistered || p == Permissions(db, NameAfter(At(u, r), cmd))
  {
    if RightsOk(db, t) {
      assert r in t.listed && PermOk(db, At(t, r));
    } else {
      var x :| x in t.listed && At(t, x).perm != Irc && !PermOk(db, At(t, x));
      assert x in u.listed;
    }
  }

  lemma {:induction false} LateRightsIff(db: Db, s: Lobby, r: Ref, cmd: Command)
    requires GoodDb(db) && Inv(db, s, None, false) && Late(s, r)
    ensures
      var p := PermAfter(db, At(s, r), cmd);
      RightsOk(db, Step(db, s, Packet(r, cmd))) <==>
      cmd.Leave? || p == Unregistered || p == Permissions(db, NameAfter(At(s, r), cmd))
  {
    LateAnswer(db, s, r, false);
    var u := Answer(db, s, r);
    assert Step(db, s, Packet(r, cmd)) == Handle(db, u, r, cmd);
    if cmd.Leave? {
      LeaveKeeps(db, u, r, false);
      CoreHasRights(db, Handle(db, u, r, cmd), false);
    } else {
      LateHandle(db, u, r, cmd);
      CoreHasRights(db, u, false);
      RenamedRightsIff(db, u, r, cmd, Handle(db, u, r, cmd));
    }
  }

  // ---------------------------------------------------------------- two runs that go wrong

  // A LOGIN that is refused for its version, but leaves its name.
  function RefusedLogin(name: Text): Command {
    Login(4, name, [], false, None, false, None)
  }

  // Ann and Bob are connected; Bob sends garbage, and with it, in one go, a LOGIN under Ann's name.
  function TwoNamesRun(): seq<Event> {
    [Connect, Packet(0, GuestLogin(ANN, HERS)), Connect, Packet(1, GuestLogin(BOB, OTHER)), Packet(1, Garbage),
     Packet(1, RefusedLogin(ANN))]
  }

  const BOB_IS_IN := ListedGuest(BOB, OTHER)

  lemma BobJoins()
    ensures
      Takes(Plain([ANN_IN, NEW_CLIENT], [0]), Packet(1, GuestLogin(BOB, OTHER)), Plain([ANN_IN, BOB_IS_IN], [0, 1]))
  {
    NoncesDiffer();
    MayLogIn(Plain([ANN_IN, NEW_CLIENT], [0]), 1, BOB, OTHER);
    var t := Put(Plain([ANN_IN, NEW_CLIENT], [0]), 1, Guest(BOB, OTHER));
    NobodyToReplace(t);
    var u := Put(t, 1, Guest(BOB, OTHER).(candidates := Some([])));
    LookupAlike(t, u, t.listed, BOB, false);
    assert FindReplaceCandidates(NOBODY_REGISTERED, t, 1, false) == LoginDone(u, 1);
  }

  lemma NobodyToReplace(t: Lobby)
    requires |t.conns| == 2 && t.conns[0] == ANN_IN && t.listed == [0]
    ensures FindClientsToReplace(t, OTHER, BOB) == [] && HasClient(t, BOB) == None
  {
    assert t.listed[1..] == [] && ANN[0] != BOB[0] && HERS[0] != OTHER[0] && At(t, 0) == ANN_IN;
    assert Lookup(t, t.listed[1..], BOB, false) == None;
    assert Best(t, t.listed, OTHER, BOB) == None;
    assert Offline(t, t.listed, OTHER, BOB) == [] && Online(t, t.listed, OTHER, BOB) == [];
  }

  lemma {:induction false} AnnThere(es: seq<Event>)
    requires |es| >= 2 && es[0] == Connect && es[1] == Packet(0, GuestLogin(ANN, HERS))
    ensures Reaches(NOBODY_REGISTERED, es, 2, Plain([ANN_IN], [0]))
  {
    SomebodyConnects(EMPTY, Plain([NEW_CLIENT], []));
    AnnJoins();
    ReachesTwo(es, 0, EMPTY, Plain([NEW_CLIENT], []), Plain([ANN_IN], [0]));
  }

  lemma {:induction false} BobThere(es: seq<Event>)
    requires |es| >= 4 && es[2] == Connect && es[3] == Packet(1, GuestLogin(BOB, OTHER))
    requires Reaches(NOBODY_REGISTERED, es, 2, Plain([ANN_IN], [0]))
    ensures Reaches(NOBODY_REGISTERED, es, 4, Plain([ANN_IN, BOB_IS_IN], [0, 1]))
  {
    SomebodyConnects(Plain([ANN_IN], [0]), Plain([ANN_IN, NEW_CLIENT], [0]));
    BobJoins();
    ReachesTwo(es, 2, Plain([ANN_IN], [0]), Plain([ANN_IN, NEW_CLIENT], [0]), Plain([ANN_IN, BOB_IS_IN], [0, 1]));
  }

  lemma {:induction false} ReachesTwo(es: seq<Event>, k: nat, s: Lobby, t: Lobby, u: Lobby)
    requires k + 1 < |es| && Reaches(NOBODY_REGISTERED, es, k, s) && Takes(s, es[k], t) && Takes(t, es[k + 1], u)
    ensures Reaches(NOBODY_REGISTERED, es, k + 2, u)
  {
    ReachesNext(NOBODY_REGISTERED, es, k, s, t);
    ReachesNext(NOBODY_REGISTERED, es, k + 1, t, u);
  }

  // Whoever sends garbage is disconnected.
  lemma GarbageEnds(db: Db, s: Lobby, r: Ref)
    requires r < |s.conns| && s.conns[r].phase != Gone && s.conns[r].perm != Irc && s.conns[r].pending == None
    ensures Possible(s, Packet(r, Garbage)) && Clean(s, Packet(r, Garbage))
    ensures Step(db, s, Packet(r, Garbage)) == Put(s, r, s.conns[r].(phase := Gone))
  {
  }

  lemma {:induction false} ThrownOut(db: Db, es: seq<Event>, k: nat, s: Lobby, r: Ref, t: Lobby)
    requires k < |es| && es[k] == Packet(r, Garbage) && Reaches(db, es, k, s)
    requires r < |s.conns| && s.conns[r].phase != Gone && s.conns[r].perm != Irc && s.conns[r].pending == None
    requires t == Put(s, r, s.conns[r].(phase := Gone))
    ensures Reaches(db, es, k + 1, t)
  {
    GarbageEnds(db, s, r);
    ReachesNext(db, es, k, s, t);
  }

  // The late LOGIN renames a listed client: two listed players have one name.
  lemma {:induction false} LateLoginBreaksNames()
    ensures
      var db, es := NOBODY_REGISTERED, TwoNamesRun();
      && GoodDb(db) && ValidRun(db, es[..5]) && Late(Run(db, es[..5]), 1)
      && !UniqueNames(Step(db, Run(db, es[..5]), es[5]))
  {
    var es := TwoNamesRun();
    NoncesDiffer();
    AnnThere(es);
    BobThere(es);
    var s := Plain([ANN_IN, BOB_IS_IN.(phase := Gone)], [0, 1]);
    ThrownOut(NOBODY_REGISTERED, es, 4, Plain([ANN_IN, BOB_IS_IN], [0, 1]), 1, s);
    assert 0 in s.listed && 1 in s.listed && At(s, 0).name == ANN;
    LatePacketKeepsNamesIff(NOBODY_REGISTERED, es[..5], 1, RefusedLogin(ANN));
  }

  // Ann is an administrator.
  const ANN_RULES := Db(map[ANN := User([], Superuser)], t => [])

  function AdminLogin(): Command {
    Login(BUILD19, ANN, [], true, Some([]), false, None)
  }

  const ADMIN := NEW_CLIENT.(version := BUILD19, perm := Superuser, name := ANN, attempt := ByLogin)
  const ADMIN_IN := ADMIN.(phase := Connected, joined := true, timers := 1)

  function FalseAdminRun(): seq<Event> {
    [Connect, Packet(0, AdminLogin()), Packet(0, Garbage), Packet(0, RefusedLogin(BOB))]
  }

  lemma AdminJoins()
    ensures
      var s := Plain([NEW_CLIENT], []);
      && Possible(s, Packet(0, AdminLogin())) && Clean(s, Packet(0, AdminLogin()))
      && Step(ANN_RULES, s, Packet(0, AdminLogin())) == Plain([ADMIN_IN], [0])
  {
    NoncesDiffer();
    var db, s := ANN_RULES, Plain([NEW_CLIENT], []);
    var t := Put(s, 0, ADMIN);
    assert FindClientsToReplace(t, [], ANN) == [];
    assert PasswordCorrect(db, ANN, []) && Permissions(db, ANN) == Superuser;
    assert Step(db, s, Packet(0, AdminLogin())) == FindReplaceCandidates(db, t, 0, true);
  }

  lemma {:induction false} AdminThrownOut(es: seq<Event>)
    requires |es| >= 3 && es[0] == Connect && es[1] == Packet(0, AdminLogin()) && es[2] == Packet(0, Garbage)
    ensures Reaches(ANN_RULES, es, 3, Plain([ADMIN_IN.(phase := Gone)], [0]))
  {
    assert Reaches(ANN_RULES, es, 0, EMPTY);
    ReachesNext(ANN_RULES, es, 0, EMPTY, Plain([NEW_CLIENT], []));
    AdminJoins();
    ReachesNext(ANN_RULES, es, 1, Plain([NEW_CLIENT], []), Plain([ADMIN_IN], [0]));
    ThrownOut(ANN_RULES, es, 2, Plain([ADMIN_IN], [0]), 0, Plain([ADMIN_IN.(phase := Gone)], [0]));
  }

  lemma {:induction false} ValidIsPossible(db: Db, es: seq<Event>)
    requires ValidRun(db, es)
    ensures PossibleRun(db, es)
  {
    if es != [] { ValidIsPossible(db, es[..|es| - 1]); }
  }

  // The late LOGIN leaves a listed administrator under a name that is not registered.
  lemma {:induction false} LateLoginBreaksRights()
    ensures
      var db, es := ANN_RULES, FalseAdminRun();
      var t := Step(db, Run(db, es[..3]), es[3]);
      && GoodDb(db) && ValidRun(db, es[..3]) && Late(Run(db, es[..3]), 0)
      && !RightsOk(db, t)
  {
    var es := FalseAdminRun();
    NoncesDiffer();
    AdminThrownOut(es);
    ValidIsPossible(ANN_RULES, es[..3]);
    assert ANN[0] != BOB[0] && Permissions(ANN_RULES, BOB) == Unregistered;
    LatePacketKeepsRightsIff(ANN_RULES, es[..3], 0, RefusedLogin(BOB));
  }
}
