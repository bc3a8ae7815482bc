/** Delayed announcements against the client list: notices of joining and leaving follow membership. */
module LobbyAnnouncements {
  import opened GoText
  import opened LobbyModel
  import opened LobbyInvariant
  import opened LobbySteps
  import FreeName

  // The notices about r, in order: true for "has joined", false for "has left".
  function NoticesOf(notices: seq<Notice>, r: Ref): seq<bool> {
    if notices == [] then []
    else
      var n := notices[|notices| - 1];
      NoticesOf(notices[..|notices| - 1], r) + if n.r == r then [n.HasJoined?] else []
  }

  // Joining and leaving alternate, starting with joining.
  ghost predicate Alternating(ns: seq<bool>) {
    forall i :: 0 <= i < |ns| ==> ns[i] == (i % 2 == 0)
  }

  // The last notice about r says what the server believes it has announced, and while that differs
  // from membership an announcement is still to fire. IRC users are never announced.
  ghost predicate Tracks(s: Lobby, r: Ref) {
    var ns, c := NoticesOf(s.notices, r), At(s, r);
    if r < |s.conns| && c.perm != Irc then
      && Alternating(ns) && c.announced == (|ns| % 2 == 1)
      && (c.announced != (r in s.listed) ==> c.timers > 0)
    else
      ns == [] && c.timers == 0
  }

  ghost predicate AllTrack(s: Lobby) {
    forall r: Ref :: Tracks(s, r)
  }

  // Nothing is announced on the way from s to t, and whoever enters or leaves the list (unless it
  // is an IRC user) has an announcement to come.
  ghost predicate Follows(s: Lobby, t: Lobby) {
    && |t.conns| == |s.conns| && t.notices == s.notices
    && forall r: Ref :: r < |s.conns| ==> FollowsAt(s, t, r)
  }

  ghost predicate FollowsAt(s: Lobby, t: Lobby, r: Ref) {
    var c, d := At(s, r), At(t, r);
    && d.announced == c.announced && (d.perm == Irc <==> c.perm == Irc)
    && d.timers >= c.timers && (c.perm == Irc ==> d.timers == c.timers)
    && (c.perm != Irc && (r in s.listed) != (r in t.listed) ==> d.timers > 0)
  }

  lemma FollowsTrans(s: Lobby, t: Lobby, u: Lobby)
    requires Follows(s, t) && Follows(t, u)
    ensures Follows(s, u)
  {
    forall r: Ref | r < |s.conns| ensures FollowsAt(s, u, r) {
      assert FollowsAt(s, t, r) && FollowsAt(t, u, r);
    }
  }

  lemma FollowsItself(s: Lobby)
    ensures Follows(s, s)
  {
  }

  lemma FollowsTracks(s: Lobby, t: Lobby)
    requires AllTrack(s) && Follows(s, t)
    ensures AllTrack(t)
  {
    forall r: Ref ensures Tracks(t, r) {
      assert Tracks(s, r);
      if r < |s.conns| { assert FollowsAt(s, t, r); }
    }
  }

  // ---------------------------------------------------------------- the operations on the list

  lemma PutFollows(s: Lobby, r: Ref, c: Client)
    requires r < |s.conns| && c.announced == s.conns[r].announced && c.timers == s.conns[r].timers
    requires c.perm == Irc <==> s.conns[r].perm == Irc
    ensures Follows(s, Put(s, r, c))
  {
  }

  lemma RemoveFollows(s: Lobby, r: Ref)
    ensures Follows(s, RemoveClient(s, r))
  {
    StrikeOthers(s.listed, r);
  }

  lemma EnterFollows(s: Lobby, c: Ref)
    requires c < |s.conns|
    ensures Follows(s, Enter(s, c)) && Follows(s, AddClient(s, c))
  {
  }

  lemma DisconnectFollows(s: Lobby, r: Ref)
    ensures Follows(s, Disconnect(s, r))
  {
  }

  lemma LoginDoneFollows(s: Lobby, c: Ref)
    requires c < |s.conns|
    ensures Follows(s, LoginDone(s, c))
  {
    DisconnectFollows(s, c);
    EnterFollows(s, c);
  }

  lemma TakeOverFollows(s: Lobby, c: Ref, prior: Ref)
    requires c < |s.conns|
    ensures Follows(s, TakeOver(s, c, prior))
  {
    var me := s.conns[c].(name := At(s, prior).name, game := At(s, prior).game);
    var t := Put(s, c, me);
    PutFollows(s, c, me);
    RemoveFollows(t, prior);
    FollowsTrans(s, t, RemoveClient(t, prior));
    LoginDoneFollows(RemoveClient(t, prior), c);
    FollowsTrans(s, RemoveClient(t, prior), TakeOver(s, c, prior));
  }

  lemma ReloginFollows(s: Lobby, c: Ref, prior: Ref)
    requires c < |s.conns|
    ensures Follows(s, SuccessfulRelogin(s, c, prior))
  {
    var t := RemoveClient(s, prior);
    var u := AddClient(t, c);
    RemoveFollows(s, prior);
    EnterFollows(t, c);
    FollowsTrans(s, t, u);
    PutFollows(u, c, At(u, c).(phase := Connected));
    FollowsTrans(s, u, SuccessfulRelogin(s, c, prior));
  }

  lemma FindUnconnectedFollows(db: Db, s: Lobby, c: Ref)
    requires c < |s.conns| && s.conns[c].perm != Irc
    ensures Follows(s, FindUnconnectedName(db, s, c))
  {
    var me := s.conns[c];
    var k := FreeIndex(db, s, c);
    if k > FreeName.TRIES {
      var t := Put(s, c, me.(name := FreeName.Numbered(me.name, FreeName.TRIES)));
      PutFollows(s, c, t.conns[c]);
      DisconnectFollows(t, c);
      FollowsTrans(s, t, Disconnect(t, c));
    } else {
      var name := FreeName.Numbered(me.name, k);
      var nonce :=
        if me.version >= BUILD20 && (me.perm == Registered || me.perm == Superuser)
        then DowngradedNonce(db, me.name, name) else me.nonce;
      var t := Put(s, c, me.(name := name, nonce := nonce, perm := Unregistered));
      PutFollows(s, c, t.conns[c]);
      LoginDoneFollows(t, c);
      FollowsTrans(s, t, LoginDone(t, c));
    }
  }

  lemma ProbeFollows(s: Lobby, c: Ref, prior: Ref)
    requires c < |s.conns|
    ensures Follows(s, Probe(s, c, prior))
  {
    var t := Put(s, c, s.conns[c].(probes := s.conns[c].probes + 1));
    PutFollows(s, c, t.conns[c]);
    if prior < |s.conns| {
      PutFollows(t, prior, t.conns[prior].(pending := Some(c)));
      FollowsTrans(s, t, Probe(s, c, prior));
    }
  }

  lemma {:induction false} CheckCandidatesFollows(db: Db, s: Lobby, c: Ref)
    requires c < |s.conns| && s.conns[c].perm != Irc
    ensures Follows(s, CheckCandidates(db, s, c))
    decreases |CandidatesOf(At(s, c))|
  {
    var me, cs := s.conns[c], CandidatesOf(s.conns[c]);
    if me.phase != Handshake {
      DisconnectFollows(s, c);
    } else if cs == [] {
      FindUnconnectedFollows(db, s, c);
    } else {
      var me' := Downgrade(db, me, At(s, cs[0]).name).(candidates := Some(cs[1..]));
      var t := Put(s, c, me');
      PutFollows(s, c, me');
      if At(t, cs[0]).pending.Some? {
        CheckCandidatesFollows(db, t, c);
      } else if At(t, cs[0]).phase == Gone {
        TakeOverFollows(t, c, cs[0]);
      } else {
        ProbeFollows(t, c, cs[0]);
      }
      FollowsTrans(s, t, CheckCandidates(db, s, c));
    }
  }

  lemma FindReplaceFollows(db: Db, s: Lobby, c: Ref, registered: bool)
    requires c < |s.conns| && s.conns[c].perm != Irc
    ensures Follows(s, FindReplaceCandidates(db, s, c, registered))
  {
    var me := s.conns[c];
    var cs := FindClientsToReplace(s, me.nonce, me.name);
    var me' := me.(candidates := Some(cs), quota := |cs|, probes := 0);
    var t := Put(s, c, me');
    PutFollows(s, c, me');
    CheckCandidatesFollows(db, t, c);
    LoginDoneFollows(t, c);
    FindUnconnectedFollows(db, t, c);
    FollowsTrans(s, t, FindReplaceCandidates(db, s, c, registered));
  }

  // ---------------------------------------------------------------- the commands

  // A client's record is edited before anything else happens.
  lemma EditFollows(s: Lobby, c: Ref, me: Client, t: Lobby)
    requires c < |s.conns| && me.announced == s.conns[c].announced && me.timers == s.conns[c].timers
    requires me.perm == Irc <==> s.conns[c].perm == Irc
    requires Follows(Put(s, c, me), t)
    ensures Follows(s, t)
  {
    PutFollows(s, c, me);
    FollowsTrans(s, Put(s, c, me), t);
  }

  lemma RefuseFollows(s: Lobby, c: Ref, me: Client)
    requires c < |s.conns| && me.announced == s.conns[c].announced && me.timers == s.conns[c].timers
    requires me.perm == Irc <==> s.conns[c].perm == Irc
    ensures Follows(s, Disconnect(Put(s, c, me), c))
  {
    DisconnectFollows(Put(s, c, me), c);
    EditFollows(s, c, me, Disconnect(Put(s, c, me), c));
  }

  lemma LoginProceedsFollows(db: Db, s: Lobby, c: Ref, me: Client, registered: bool)
    requires c < |s.conns| && me.announced == s.conns[c].announced && me.timers == s.conns[c].timers
    requires me.perm != Irc && s.conns[c].perm != Irc
    ensures Follows(s, FindReplaceCandidates(db, Put(s, c, me), c, registered))
  {
    FindReplaceFollows(db, Put(s, c, me), c, registered);
    EditFollows(s, c, me, FindReplaceCandidates(db, Put(s, c, me), c, registered));
  }

  lemma HandleLoginFollows(db: Db, s: Lobby, c: Ref, cmd: Command)
    requires GoodDb(db) && cmd.Login? && c < |s.conns| && s.conns[c].perm != Irc
    ensures Follows(s, HandleLogin(db, s, c, cmd))
  {
    var me := s.conns[c].(version := cmd.version, name := cmd.name, build := cmd.build, attempt := ByLogin);
    var hasNonce := cmd.registered || cmd.version >= BUILD20;
    var me' := if hasNonce && cmd.nonce.Some? then me.(nonce := cmd.nonce.value) else me;
    DisconnectFollows(s, c);
    RefuseFollows(s, c, me);
    RefuseFollows(s, c, me');
    if cmd.registered && cmd.name in db.users && cmd.version >= BUILD20 {
      RefuseFollows(s, c, me'.(expected := []));
      if cmd.challenge.Some? {
        PutFollows(s, c, me'.(expected := db.sha(cmd.challenge.value + db.users[cmd.name].password),
          attempt := NotYet));
      }
    } else {
      var me'' := if cmd.registered then me'.(perm := Permissions(db, cmd.name)) else me';
      LoginProceedsFollows(db, s, c, me'', cmd.registered);
    }
  }

  lemma HandleMalformedFollows(s: Lobby, c: Ref, cmd: Command)
    requires cmd.Malformed? && c < |s.conns|
    ensures Follows(s, HandleMalformed(s, c, cmd))
  {
    var me := s.conns[c];
    DisconnectFollows(s, c);
    RefuseFollows(s, c, me.(version := cmd.version, name := if cmd.gotName.Some? then cmd.gotName.value else me.name,
                            build := if cmd.gotBuild.Some? then cmd.gotBuild.value else me.build));
  }

  lemma HandleCheckPasswordFollows(db: Db, s: Lobby, c: Ref, cmd: Command)
    requires cmd.CheckPassword? && c < |s.conns|
    ensures Follows(s, HandleCheckPassword(db, s, c, cmd))
  {
    var me := s.conns[c].(version := cmd.version, name := cmd.name, build := cmd.build);
    DisconnectFollows(s, c);
    RefuseFollows(s, c, me);
    if cmd.name in db.users {
      var expected := if cmd.challenge == None then [] else db.sha(cmd.challenge.value + db.users[cmd.name].password);
      PutFollows(s, c, me.(expected := expected, phase := CheckPwd, attempt := NotYet));
    }
  }

  lemma HandlePasswordFollows(db: Db, s: Lobby, c: Ref, response: Text)
    requires GoodDb(db) && c < |s.conns| && s.conns[c].perm != Irc
    ensures Follows(s, HandlePassword(db, s, c, response))
  {
    var me := s.conns[c];
    DisconnectFollows(s, c);
    if me.phase == Handshake {
      var me' := me.(perm := Permissions(db, me.name), nonce := DowngradedNonce(db, me.name, me.name),
        attempt := ByLogin);
      LoginProceedsFollows(db, s, c, me', true);
    } else {
      PutFollows(s, c, me.(phase := Handshake, attempt := NotYet));
    }
  }

  lemma HandleReloginFollows(db: Db, s: Lobby, c: Ref, cmd: Command)
    requires cmd.Relogin? && c < |s.conns| && s.conns[c].perm != Irc
    ensures Follows(s, HandleRelogin(db, s, c, cmd))
  {
    DisconnectFollows(s, c);
    LookupIs(s, s.listed, cmd.name, false);
    if HasClient(s, cmd.name).Some? {
      var prior := HasClient(s, cmd.name).value;
      var him := At(s, prior);
      var me := s.conns[c].(version := him.version, perm := him.perm, name := him.name, build := him.build,
                            game := him.game, nonce := him.nonce, attempt := ByRelogin);
      var t := Put(s, c, me);
      ReloginFollows(t, c, prior);
      EditFollows(s, c, me, SuccessfulRelogin(t, c, prior));
      if prior < |s.conns| { PutFollows(t, prior, At(t, prior).(pending := Some(c))); }
      EditFollows(s, c, me, Put(t, prior, At(t, prior).(pending := Some(c))));
    }
  }

  lemma LeaveFollows(s: Lobby, r: Ref)
    requires r < |s.conns|
    ensures Follows(s, RemoveClient(Disconnect(Put(s, r, s.conns[r].(game := None)), r), r))
    ensures Follows(s, RemoveClient(Disconnect(s, r), r))
    ensures Follows(s, RemoveClient(Put(s, r, s.conns[r].(game := None)), r))
  {
    var me := s.conns[r].(game := None);
    var t := Put(s, r, me);
    PutFollows(s, r, me);
    RemoveFollows(t, r);
    FollowsTrans(s, t, RemoveClient(t, r));
    DisconnectFollows(t, r);
    FollowsTrans(s, t, Disconnect(t, r));
    RemoveFollows(Disconnect(t, r), r);
    FollowsTrans(s, Disconnect(t, r), RemoveClient(Disconnect(t, r), r));
    DisconnectFollows(s, r);
    RemoveFollows(Disconnect(s, r), r);
    FollowsTrans(s, Disconnect(s, r), RemoveClient(Disconnect(s, r), r));
  }

  // ---------------------------------------------------------------- announcing

  lemma NoticeAdded(notices: seq<Notice>, n: Notice, r: Ref)
    ensures NoticesOf(notices + [n], r) == NoticesOf(notices, r) + if n.r == r then [n.HasJoined?] else []
  {
    assert (notices + [n])[..|notices|] == notices;
  }

  // r's announcements so far are consistent; whether one is still to come does not matter here.
  ghost predicate Speaks(s: Lobby, r: Ref) {
    var ns, c := NoticesOf(s.notices, r), At(s, r);
    r < |s.conns| && c.perm != Irc && Alternating(ns) && c.announced == (|ns| % 2 == 1)
  }

  lemma AnnounceTracks(s: Lobby, r: Ref)
    requires Speaks(s, r) && forall x: Ref :: x != r ==> Tracks(s, x)
    ensures AllTrack(AnnounceNow(s, r))
    ensures At(AnnounceNow(s, r), r).announced == (r in s.listed)
  {
    var t := AnnounceNow(s, r);
    var n := if r in s.listed then HasJoined(r) else HasLeft(r);
    forall x: Ref ensures Tracks(t, x) {
      if t != s { NoticeAdded(s.notices, n, x); }
      if x != r { assert Tracks(s, x); }
    }
  }

  lemma HandleTracks(db: Db, s: Lobby, r: Ref, cmd: Command)
    requires GoodDb(db) && AllTrack(s) && r < |s.conns| && s.conns[r].perm != Irc
    ensures AllTrack(Handle(db, s, r, cmd))
  {
    if cmd.Chat? {
      assert Tracks(s, r);
      AnnounceTracks(s, r);
    } else {
      match cmd {
        case Login(_, _, _, _, _, _, _) => HandleLoginFollows(db, s, r, cmd);
        case Malformed(_, _, _) => HandleMalformedFollows(s, r, cmd);
        case CheckPassword(_, _, _, _) => HandleCheckPasswordFollows(db, s, r, cmd);
        case Password(response) => HandlePasswordFollows(db, s, r, response);
        case Relogin(_, _, _, _, _, _) => HandleReloginFollows(db, s, r, cmd);
        case Leave => LeaveFollows(s, r);
        case Pong => FollowsItself(s);
        case EnterGame(game) => PutFollows(s, r, s.conns[r].(game := game));
        case Garbage => DisconnectFollows(s, r);
      }
      FollowsTracks(s, Handle(db, s, r, cmd));
    }
  }

  lemma AnswerFollows(db: Db, s: Lobby, x: Ref)
    requires Inv(db, s, None, false) && x < |s.conns| && s.conns[x].phase != Gone
    ensures Follows(s, Answer(db, s, x))
  {
    if s.conns[x].pending.Some? && s.conns[x].pending.value < |s.conns| {
      var p := s.conns[x].pending.value;
      assert Accounted(s, None, x);
      assert Link(s, None, x, p);
      assert Waits(db, s, x, p, false);
      DisconnectFollows(s, p);
      CheckCandidatesFollows(db, s, p);
      var t := if At(s, p).candidates == None then Disconnect(s, p) else CheckCandidates(db, s, p);
      PutFollows(t, x, At(t, x).(pending := None));
      FollowsTrans(s, t, Answer(db, s, x));
    }
  }

  lemma FailedPongFollows(db: Db, s: Lobby, x: Ref)
    requires Inv(db, s, None, false) && x < |s.conns|
    requires s.conns[x].pending.Some? ==> !At(s, s.conns[x].pending.value).joined
    ensures Follows(s, FailedPong(s, x))
  {
    var t := Disconnect(s, x);
    DisconnectFollows(s, x);
    if s.conns[x].pending.Some? {
      var p := s.conns[x].pending.value;
      assert Link(s, None, x, p);
      assert Waits(db, s, x, p, false);
      ReloginFollows(t, p, x);
      TakeOverFollows(t, p, x);
      FollowsTrans(s, t, FailedPong(s, x));
    }
  }

  lemma AnnounceStepTracks(db: Db, s: Lobby, r: Ref)
    requires AllTrack(s)
    ensures AllTrack(Step(db, s, Announce(r)))
  {
    assert Tracks(s, r);
    if At(s, r).timers > 0 {
      var t := Put(s, r, At(s, r).(timers := At(s, r).timers - 1));
      forall x: Ref | x != r ensures Tracks(t, x) {
        assert Tracks(s, x);
      }
      AnnounceTracks(t, r);
    }
  }

  lemma NewcomerTracks(s: Lobby, c: Client, t: Lobby)
    requires AllTrack(s) && c.timers == 0 && (c.perm != Irc ==> !c.announced)
    requires t.conns == s.conns + [c] && t.notices == s.notices
    requires t.listed == s.listed || (c.perm == Irc && t.listed == s.listed + [|s.conns|])
    requires forall x :: x in s.listed ==> x < |s.conns|
    ensures AllTrack(t)
  {
    forall r: Ref ensures Tracks(t, r) {
      assert Tracks(s, r);
      assert r < |s.conns| ==> t.conns[r] == s.conns[r];
    }
  }

  lemma IrcJoinTracks(db: Db, s: Lobby, name: Text)
    requires Inv(db, s, None, false) && AllTrack(s)
    ensures AllTrack(Step(db, s, IrcJoin(name)))
  {
    if HasIrcClient(s, name) == None {
      var c := NEW_CLIENT.(phase := Connected, perm := Irc, name := name, build := Ascii("IRC"), nonce := IRC_NONCE,
                           announced := true, attempt := ByLogin, joined := true);
      NewcomerTracks(s, c, Step(db, s, IrcJoin(name)));
    }
  }

  lemma StepTracks(db: Db, s: Lobby, e: Event)
    requires GoodDb(db) && Inv(db, s, None, false) && Possible(s, e) && AllTrack(s)
    ensures AllTrack(Step(db, s, e))
  {
    match e
    case Connect => NewcomerTracks(s, NEW_CLIENT, Step(db, s, e));
    case Packet(r, cmd) =>
      AnswerFollows(db, s, r);
      var t := Answer(db, s, r);
      FollowsTracks(s, t);
      assert FollowsAt(s, t, r);
      HandleTracks(db, t, r, cmd);
    case StreamEnded(r) =>
      if s.conns[r].phase != Gone {
        assert Accounted(s, None, r);
        FailedPongFollows(db, s, r);
        FollowsTracks(s, Step(db, s, e));
      }
    case PingUnanswered(r) =>
      FailedPongFollows(db, s, r);
      FollowsTracks(s, Step(db, s, e));
    case Timeout(r) =>
      DisconnectFollows(s, r);
      FollowsTracks(s, Step(db, s, e));
    case Forget(r) =>
      LeaveFollows(s, r);
      if Step(db, s, e) != s { FollowsTracks(s, Step(db, s, e)); }
    case Kick(name) =>
      LookupIs(s, s.listed, name, false);
      if HasClient(s, name).Some? { LeaveFollows(s, HasClient(s, name).value); }
      if Step(db, s, e) != s { FollowsTracks(s, Step(db, s, e)); }
    case IrcJoin(name) => IrcJoinTracks(db, s, name);
    case IrcLeave(name) =>
      if HasIrcClient(s, name).Some? {
        RemoveFollows(s, HasIrcClient(s, name).value);
        FollowsTracks(s, Step(db, s, e));
      }
    case Announce(r) => AnnounceStepTracks(db, s, r);
  }

  lemma {:induction false} RunTracks(db: Db, es: seq<Event>)
    requires GoodDb(db) && PossibleRun(db, es)
    ensures AllTrack(Run(db, es))
  {
    if es != [] {
      var before := es[..|es| - 1];
      RunTracks(db, before);
      PossibleRunKeeps(db, before);
      StepTracks(db, Run(db, before), es[|es| - 1]);
    }
  }

  // ---------------------------------------------------------------- the theorems

  // The last notice about r, if any, was that it has joined.
  predicate LastJoined(ns: seq<bool>) {
    ns != [] && ns[|ns| - 1]
  }

  lemma TracksMeans(s: Lobby, r: Ref)
    requires Tracks(s, r) && r < |s.conns| && s.conns[r].perm != Irc
    ensures
      var ns := NoticesOf(s.notices, r);
      && (forall i :: 0 <= i < |ns| ==> ns[i] == (i % 2 == 0))
      && s.conns[r].announced == LastJoined(ns)
      && (s.conns[r].timers == 0 ==> s.conns[r].announced == (r in s.listed))
  {
  }

  // In every possible run the notices about a player alternate, starting with its joining, and while
  // the last of them differs from its membership an announcement is still to fire.
  lemma {:induction false} NoticesAlternate(db: Db, es: seq<Event>, r: Ref)
    requires GoodDb(db) && PossibleRun(db, es) && r < |Run(db, es).conns| && Run(db, es).conns[r].perm != Irc
    ensures
      var s := Run(db, es);
      var ns := NoticesOf(s.notices, r);
      && (forall i :: 0 <= i < |ns| ==> ns[i] == (i % 2 == 0))
      && s.conns[r].announced == LastJoined(ns)
      && (s.conns[r].timers == 0 ==> s.conns[r].announced == (r in s.listed))
  {
    RunTracks(db, es);
    TracksMeans(Run(db, es), r);
  }

  // Nobody is told of IRC users this way.
  lemma {:induction false} IrcUsersAreNotAnnounced(db: Db, es: seq<Event>, r: Ref)
    requires GoodDb(db) && PossibleRun(db, es) && r < |Run(db, es).conns| && Run(db, es).conns[r].perm == Irc
    ensures NoticesOf(Run(db, es).notices, r) == []
  {
    RunTracks(db, es);
    assert Tracks(Run(db, es), r);
  }

  function Firings(r: Ref, n: nat): seq<Event> {
    if n == 0 then [] else Firings(r, n - 1) + [Announce(r)]
  }

  // From s to t, n announcements about r have fired and the list has not changed.
  ghost predicate CountedDown(s: Lobby, t: Lobby, r: Ref, n: nat) {
    && t.listed == s.listed && |t.conns| == |s.conns| && r < |s.conns|
    && t.conns[r].timers + n == s.conns[r].timers && t.conns[r].perm == s.conns[r].perm
  }

  lemma AnnounceCountsDown(db: Db, s: Lobby, t: Lobby, r: Ref, n: nat)
    requires CountedDown(s, t, r, n) && t.conns[r].timers > 0
    ensures CountedDown(s, Step(db, t, Announce(r)), r, n + 1)
  {
  }

  // After es, which is valid, comes the state s.
  ghost predicate Reaches(db: Db, es: seq<Event>, s: Lobby) {
    PossibleRun(db, es) && Run(db, es) == s
  }

  lemma ReachesFurther(db: Db, es: seq<Event>, s: Lobby, r: Ref, t: Lobby)
    requires Reaches(db, es, s) && t == Step(db, s, Announce(r))
    ensures Reaches(db, es + [Announce(r)], t)
  {
    assert (es + [Announce(r)])[..|es|] == es;
  }

  function Fire(db: Db, s: Lobby, r: Ref, n: nat): Lobby {
    if n == 0 then s else Step(db, Fire(db, s, r, n - 1), Announce(r))
  }

  lemma {:induction false} FiringsCountDown(db: Db, s: Lobby, r: Ref, n: nat)
    requires r < |s.conns| && n <= s.conns[r].timers
    ensures CountedDown(s, Fire(db, s, r, n), r, n)
  {
    if n > 0 {
      FiringsCountDown(db, s, r, n - 1);
      AnnounceCountsDown(db, s, Fire(db, s, r, n - 1), r, n - 1);
    }
  }

  lemma {:induction false} RunFires(db: Db, es: seq<Event>, s: Lobby, r: Ref, n: nat)
    requires Reaches(db, es, s)
    ensures Reaches(db, es + Firings(r, n), Fire(db, s, r, n))
  {
    if n == 0 {
      assert es + Firings(r, 0) == es;
    } else {
      RunFires(db, es, s, r, n - 1);
      assert es + Firings(r, n) == es + Firings(r, n - 1) + [Announce(r)];
      ReachesFurther(db, es + Firings(r, n - 1), Fire(db, s, r, n - 1), r, Fire(db, s, r, n));
    }
  }

  // Once all of a player's pending announcements have fired, what was announced last is whether it
  // is in the list.
  lemma {:induction false} AnnouncementsCatchUp(db: Db, es: seq<Event>, r: Ref)
    requires GoodDb(db) && PossibleRun(db, es) && r < |Run(db, es).conns| && Run(db, es).conns[r].perm != Irc
    ensures
      var s, t := Run(db, es), Run(db, es + Firings(r, Run(db, es).conns[r].timers));
      var ns := NoticesOf(t.notices, r);
      t.listed == s.listed && (LastJoined(ns) <==> r in s.listed)
  {
    var n := Run(db, es).conns[r].timers;
    FiringsCountDown(db, Run(db, es), r, n);
    RunFires(db, es, Run(db, es), r, n);
    NoticesAlternate(db, es + Firings(r, n), r);
  }

  // In every possible run, a listed client that has spoken in the chat has been announced: the last notice
  // about it is that it has joined, whatever announcements are still to come.
  lemma {:induction false} SpeakersAreAnnounced(db: Db, es: seq<Event>, r: Ref)
    requires GoodDb(db) && PossibleRun(db, es) && Possible(Run(db, es), Packet(r, Chat)) && r in Run(db, es).listed
    ensures
      var t := Step(db, Run(db, es), Packet(r, Chat));
      r in t.listed ==> LastJoined(NoticesOf(t.notices, r))
  {
    var s := Run(db, es);
    PossibleRunKeeps(db, es);
    RunTracks(db, es);
    StepTracks(db, s, Packet(r, Chat));
    var t := Step(db, s, Packet(r, Chat));
    AnswerKeeps(db, s, r, false);
    var u := Answer(db, s, r);
    assert t == Handle(db, u, r, Chat);
    TracksMeans(t, r);
  }
}
