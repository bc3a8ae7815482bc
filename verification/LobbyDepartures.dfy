/** Who makes way for whom in the lobby, and who leaves it (wlms/client.go, wlms/server.go): RELOGIN, silence and
    answers, kicks, timers, IRC users. */
module LobbyDepartures {
  import opened GoText
  import opened LobbyModel
  import opened LobbyInvariant
  import opened LobbySteps
  import opened LobbyOutcomes
  import LobbyTheorems
  import LobbyScans
  import LobbyProofs
  import FreeName

  // ---------------------------------------------------------------- nobody who is there is replaced

  // Whoever has left the list is disconnected, and whoever was in the lobby and is gone stays so.
  ghost predicate OnlyTheGoneLeave(s: Lobby, t: Lobby) {
    && |s.conns| <= |t.conns|
    && (forall x :: x in s.listed && x !in t.listed ==> At(t, x).phase == Gone)
    && (forall x :: 0 <= x < |s.conns| && s.conns[x].joined ==>
          t.conns[x].joined && (s.conns[x].phase == Gone ==> t.conns[x].phase == Gone))
  }

  lemma LeavingOn(s: Lobby, t: Lobby, u: Lobby)
    requires ListedOk(s) && OnlyTheGoneLeave(s, t) && OnlyTheGoneLeave(t, u)
    ensures OnlyTheGoneLeave(s, u)
  {
    forall x | x in s.listed && x !in u.listed ensures At(u, x).phase == Gone {
      assert s.conns[x].joined;
    }
  }

  // c is somebody who has not been let in yet.
  ghost predicate Outside(s: Lobby, c: Ref) {
    c < |s.conns| && !s.conns[c].joined && ListedOk(s)
  }

  lemma EditLeaves(s: Lobby, r: Ref, c: Client)
    requires r < |s.conns| ==> (s.conns[r].joined ==> c.joined) && (s.conns[r].phase == Gone ==> c.phase == Gone)
    ensures OnlyTheGoneLeave(s, Put(s, r, c))
  {
  }

  lemma OutsideEditLeaves(s: Lobby, r: Ref, c: Client)
    requires Outside(s, r)
    ensures OnlyTheGoneLeave(s, Put(s, r, c))
  {
  }

  lemma RemovalLeaves(s: Lobby, r: Ref)
    requires ListedOk(s) && At(s, r).phase == Gone
    ensures OnlyTheGoneLeave(s, RemoveClient(s, r))
  {
    StrikeOthers(s.listed, r);
  }

  lemma LoginDoneLeaves(s: Lobby, c: Ref)
    requires c < |s.conns| && !s.conns[c].joined
    ensures OnlyTheGoneLeave(s, LoginDone(s, c))
  {
  }

  lemma TakeOverLeaves(s: Lobby, c: Ref, prior: Ref)
    requires Outside(s, c) && prior != c && At(s, prior).phase == Gone
    ensures OnlyTheGoneLeave(s, TakeOver(s, c, prior))
  {
    var u := Put(s, c, At(s, c).(name := At(s, prior).name, game := At(s, prior).game));
    OutsideEditLeaves(s, c, u.conns[c]);
    RemovalLeaves(u, prior);
    LeavingOn(s, u, TakeName(s, c, prior));
    LoginDoneLeaves(TakeName(s, c, prior), c);
    LeavingOn(s, TakeName(s, c, prior), TakeOver(s, c, prior));
  }

  lemma FindUnconnectedLeaves(db: Db, s: Lobby, c: Ref)
    requires Outside(s, c)
    ensures OnlyTheGoneLeave(s, FindUnconnectedName(db, s, c))
  {
    var me, k := s.conns[c], FreeIndex(db, s, c);
    var name := FreeName.Numbered(me.name, if k > FreeName.TRIES then FreeName.TRIES else k);
    var t := Put(s, c, me.(name := name));
    LobbyScans.SearchEnds(db, s, t, c, k);
    var d :=
      if k > FreeName.TRIES then t.conns[c].(phase := Gone)
      else t.conns[c].(nonce := LobbyScans.NonceFor(db, t.conns[c], me.name), perm := Unregistered);
    LobbyScans.PutAgain(s, c);
    OutsideEditLeaves(s, c, d);
    LoginDoneLeaves(Put(s, c, d), c);
    LeavingOn(s, Put(s, c, d), LoginDone(Put(s, c, d), c));
  }

  lemma {:induction false} CheckLeaves(db: Db, s: Lobby, c: Ref)
    requires Outside(s, c) && c !in CandidatesOf(s.conns[c])
    ensures OnlyTheGoneLeave(s, CheckCandidates(db, s, c))
    decreases |CandidatesOf(At(s, c))|
  {
    var cs := CandidatesOf(s.conns[c]);
    if s.conns[c].phase == Handshake && cs == [] {
      FindUnconnectedLeaves(db, s, c);
    } else if s.conns[c].phase == Handshake {
      var t := Put(s, c, Downgrade(db, s.conns[c], At(s, cs[0]).name).(candidates := Some(cs[1..])));
      OutsideEditLeaves(s, c, t.conns[c]);
      if At(t, cs[0]).pending.Some? {
        CheckLeaves(db, t, c);
      } else if At(t, cs[0]).phase == Gone {
        TakeOverLeaves(t, c, cs[0]);
      } else {
        ProbeLeaves(t, c, cs[0]);
      }
      LeavingOn(s, t, CheckCandidates(db, s, c));
    }
  }

  lemma ProbeLeaves(s: Lobby, c: Ref, prior: Ref)
    requires Outside(s, c) && prior != c
    ensures OnlyTheGoneLeave(s, Probe(s, c, prior))
  {
  }

  lemma {:induction false} FindReplaceLeaves(db: Db, s: Lobby, c: Ref, registered: bool)
    requires Outside(s, c)
    ensures OnlyTheGoneLeave(s, FindReplaceCandidates(db, s, c, registered))
  {
    var cs := FindClientsToReplace(s, s.conns[c].nonce, s.conns[c].name);
    var t := Put(s, c, s.conns[c].(candidates := Some(cs), quota := |cs|, probes := 0));
    OutsideEditLeaves(s, c, t.conns[c]);
    CandidatesAreListed(s, s.conns[c].nonce, s.conns[c].name);
    assert c !in s.listed;
    CheckLeaves(db, t, c);
    LoginDoneLeaves(t, c);
    FindUnconnectedLeaves(db, t, c);
    LeavingOn(s, t, FindReplaceCandidates(db, s, c, registered));
  }

  lemma ReloginLeaves(s: Lobby, c: Ref, prior: Ref)
    requires Outside(s, c) && prior != c && At(s, prior).phase == Gone
    ensures OnlyTheGoneLeave(s, SuccessfulRelogin(s, c, prior))
  {
    RemovalLeaves(s, prior);
  }

  lemma {:induction false} LoginLeaves(db: Db, s: Lobby, r: Ref, cmd: Command)
    requires Outside(s, r) && cmd.Login?
    ensures OnlyTheGoneLeave(s, HandleLogin(db, s, r, cmd))
  {
    LobbyScans.LoginIs(db, s, r, cmd);
    var t := Put(s, r, LobbyScans.AfterLogin(s.conns[r], cmd));
    OutsideEditLeaves(s, r, t.conns[r]);
    OutsideEditLeaves(t, r, t.conns[r].(phase := Gone));
    OutsideEditLeaves(s, r, s.conns[r].(phase := Gone));
    var u := LobbyScans.LoginGoesOn(db, t, r, cmd);
    LoginGoesOnLeaves(db, t, r, cmd);
    LeavingOn(s, t, u);
    LeavingOn(s, t, Disconnect(t, r));
  }

  lemma {:induction false} LoginGoesOnLeaves(db: Db, t: Lobby, r: Ref, cmd: Command)
    requires Outside(t, r) && cmd.Login?
    ensures OnlyTheGoneLeave(t, LobbyScans.LoginGoesOn(db, t, r, cmd))
  {
    var v := Put(t, r, t.conns[r].(perm := Permissions(db, t.conns[r].name)));
    OutsideEditLeaves(t, r, v.conns[r]);
    FindReplaceLeaves(db, v, r, true);
    FindReplaceLeaves(db, t, r, false);
    LeavingOn(t, v, FindReplaceCandidates(db, v, r, true));
    OutsideEditLeaves(t, r, t.conns[r].(phase := Gone));
    ChallengeLeaves(db, t, r, cmd.challenge);
  }

  lemma ChallengeLeaves(db: Db, t: Lobby, r: Ref, challenge: Option<Text>)
    requires Outside(t, r)
    ensures OnlyTheGoneLeave(t, LobbyScans.ChallengeSent(db, t, r, challenge))
  {
    OutsideEditLeaves(t, r, At(LobbyScans.ChallengeSent(db, t, r, challenge), r));
  }

  lemma {:induction false} PasswordLeaves(db: Db, s: Lobby, r: Ref, response: Text)
    requires Outside(s, r)
    ensures OnlyTheGoneLeave(s, HandlePassword(db, s, r, response))
  {
    var me := s.conns[r];
    var c := me.(perm := Permissions(db, me.name), nonce := DowngradedNonce(db, me.name, me.name), attempt := ByLogin);
    OutsideEditLeaves(s, r, c);
    FindReplaceLeaves(db, Put(s, r, c), r, true);
    LeavingOn(s, Put(s, r, c), FindReplaceCandidates(db, Put(s, r, c), r, true));
    OutsideEditLeaves(s, r, me.(phase := Gone));
    OutsideEditLeaves(s, r, me.(phase := Handshake, attempt := NotYet));
  }

  lemma {:induction false} ReloginStepLeaves(db: Db, s: Lobby, r: Ref, cmd: Command)
    requires Outside(s, r) && cmd.Relogin? && r !in s.listed
    ensures OnlyTheGoneLeave(s, HandleRelogin(db, s, r, cmd))
  {
    LobbyScans.ReloginIs(db, s, r, cmd);
    LookupIs(s, s.listed, cmd.name, false);
    OutsideEditLeaves(s, r, s.conns[r].(phase := Gone));
    var found := HasClient(s, cmd.name);
    if found.Some? {
      var t := LobbyScans.Impersonated(s, r, found.value);
      OutsideEditLeaves(s, r, t.conns[r]);
      if At(s, found.value).phase == Gone { ReloginLeaves(t, r, found.value); }
      EditLeaves(t, found.value, At(t, found.value).(pending := Some(r)));
      LeavingOn(s, t, LobbyScans.ReloginGoesOn(s, r, found.value));
    }
  }

  lemma {:induction false} HandleLeaves(db: Db, s: Lobby, r: Ref, cmd: Command)
    requires Inv(db, s, None, false) && r < |s.conns| && s.conns[r].phase != Gone && s.conns[r].perm != Irc
    requires Orderly(s.conns[r], cmd)
    ensures OnlyTheGoneLeave(s, Handle(db, s, r, cmd))
  {
    EditLeaves(s, r, s.conns[r].(phase := Gone));
    if IsAttempt(cmd) && s.conns[r].phase == Connected {
      ConnectedIsRefused(db, s, r, cmd);
    } else if IsAttempt(cmd) {
      ReadyToLogin(db, s, r);
      AttemptLeaves(db, s, r, cmd);
    } else if cmd.Leave? {
      var t := Disconnect(Put(s, r, s.conns[r].(game := None)), r);
      EditLeaves(s, r, At(t, r));
      RemovalLeaves(t, r);
      LeavingOn(s, t, RemoveClient(t, r));
    } else {
      EditLeaves(s, r, At(Handle(db, s, r, cmd), r));
    }
  }

  lemma {:induction false} AttemptLeaves(db: Db, s: Lobby, r: Ref, cmd: Command)
    requires Outside(s, r) && r !in s.listed && IsAttempt(cmd)
    ensures OnlyTheGoneLeave(s, Handle(db, s, r, cmd))
  {
    match cmd
    case Login(_, _, _, _, _, _, _) => LoginLeaves(db, s, r, cmd);
    case Password(response) => PasswordLeaves(db, s, r, response);
    case Relogin(_, _, _, _, _, _) => ReloginStepLeaves(db, s, r, cmd);
    case _ => OutsideEditLeaves(s, r, At(Handle(db, s, r, cmd), r));
  }

  lemma {:induction false} AnswerLeaves(db: Db, s: Lobby, x: Ref)
    requires Inv(db, s, None, false) && x < |s.conns| && s.conns[x].phase != Gone
    ensures OnlyTheGoneLeave(s, Answer(db, s, x))
  {
    if s.conns[x].pending.Some? {
      var p := s.conns[x].pending.value;
      LobbyTheorems.WaiterOf(db, s, x, p, false);
      var t := if s.conns[p].candidates == None then Disconnect(s, p) else CheckCandidates(db, s, p);
      if s.conns[p].candidates.Some? { CheckLeaves(db, s, p); }
      EditLeaves(t, x, At(t, x).(pending := None));
      LeavingOn(s, t, Answer(db, s, x));
    }
  }

  lemma {:induction false} SilenceLeaves(db: Db, s: Lobby, x: Ref)
    requires Inv(db, s, None, false) && x < |s.conns|
    requires s.conns[x].pending.Some? ==> Link(s, None, x, s.conns[x].pending.value)
    ensures OnlyTheGoneLeave(s, FailedPong(s, x))
  {
    var t := Disconnect(s, x);
    EditLeaves(s, x, s.conns[x].(phase := Gone));
    if s.conns[x].pending.Some? {
      var p := s.conns[x].pending.value;
      assert Waits(db, s, x, p, false);
      TakeOverLeaves(t, p, x);
      ReloginLeaves(t, p, x);
      LeavingOn(s, t, FailedPong(s, x));
    }
  }

  lemma {:induction false} EventLeaves(db: Db, s: Lobby, e: Event)
    requires Inv(db, s, None, false) && Possible(s, e) && !e.Packet? && !e.Forget? && !e.IrcLeave?
    ensures OnlyTheGoneLeave(s, Step(db, s, e))
  {
    match e
    case StreamEnded(r) =>
      assert Accounted(s, None, r);
      if s.conns[r].phase != Gone { SilenceLeaves(db, s, r); }
    case PingUnanswered(r) => SilenceLeaves(db, s, r);
    case Timeout(r) => EditLeaves(s, r, s.conns[r].(phase := Gone));
    case Kick(name) => KickLeaves(db, s, name);
    case Announce(r) => AnnounceLeaves(db, s, r);
    case _ =>
  }

  lemma {:induction false} KickLeaves(db: Db, s: Lobby, name: Text)
    requires ListedOk(s)
    ensures OnlyTheGoneLeave(s, Step(db, s, Kick(name)))
  {
    LobbyScans.KickIs(db, s, name);
    LookupIs(s, s.listed, name, false);
    var found := HasClient(s, name);
    if found.Some? {
      var t := Disconnect(s, found.value);
      EditLeaves(s, found.value, At(s, found.value).(phase := Gone));
      RemovalLeaves(t, found.value);
      LeavingOn(s, t, RemoveClient(t, found.value));
    }
  }

  lemma {:induction false} AnnounceLeaves(db: Db, s: Lobby, r: Ref)
    requires ListedOk(s)
    ensures OnlyTheGoneLeave(s, Step(db, s, Announce(r)))
  {
    AnnounceIs(db, s, r);
    if At(s, r).timers > 0 {
      var t := Put(s, r, At(s, r).(timers := At(s, r).timers - 1));
      EditLeaves(s, r, At(t, r));
      EditLeaves(t, r, At(t, r).(announced := r in t.listed));
      LeavingOn(s, t, AnnounceNow(t, r));
    }
  }

  // The timer that forgets a client takes at most that client, and the bridge takes nobody but IRC users.
  lemma {:induction false} ForgetTakesOne(db: Db, s: Lobby, e: Event)
    requires e.Forget? || e.IrcLeave?
    ensures forall x :: x in s.listed && x !in Step(db, s, e).listed ==>
      if e.Forget? then x == e.r else At(s, x).perm == Irc && At(s, x).name == e.name
  {
    if e.Forget? {
      StrikeOthers(s.listed, e.r);
    } else {
      LookupIs(s, s.listed, e.name, true);
      var found := HasIrcClient(s, e.name);
      if found.Some? { StrikeOthers(s.listed, found.value); }
    }
  }

  // In every possible run, whoever leaves the list by a step is disconnected when it ends, or is an IRC user
  // the bridge takes off, or the one client a timer is about. So no LOGIN, RELOGIN, answer or silence of others
  // ever puts somebody else in the place of a client that is still there.
  lemma {:induction false} NobodyThereIsReplaced(db: Db, es: seq<Event>, e: Event, x: Ref)
    requires GoodDb(db) && PossibleRun(db, es) && Possible(Run(db, es), e)
    requires x in Run(db, es).listed && x !in Step(db, Run(db, es), e).listed
    ensures
      || At(Step(db, Run(db, es), e), x).phase == Gone
      || e == Forget(x)
      || (e == IrcLeave(At(Run(db, es), x).name) && At(Run(db, es), x).perm == Irc)
  {
    PossibleRunKeeps(db, es);
    var s := Run(db, es);
    if e.Packet? {
      PacketLeaves(db, s, e.r, e.cmd);
    } else if e.Forget? || e.IrcLeave? {
      ForgetTakesOne(db, s, e);
    } else {
      EventLeaves(db, s, e);
    }
  }

  lemma {:induction false} PacketLeaves(db: Db, s: Lobby, r: Ref, cmd: Command)
    requires GoodDb(db) && Inv(db, s, None, false) && Possible(s, Packet(r, cmd))
    ensures OnlyTheGoneLeave(s, Step(db, s, Packet(r, cmd)))
  {
    var t := Answer(db, s, r);
    LobbyProofs.SenderStays(db, s, r);
    AnswerLeaves(db, s, r);
    HandleLeaves(db, t, r, cmd);
    LeavingOn(s, t, Handle(db, t, r, cmd));
  }

  // ---------------------------------------------------------------- RELOGIN

  // The first player of the name in the list.
  ghost predicate FirstOf(s: Lobby, name: Text, i: nat) {
    i < |s.listed| && Bears(s, s.listed[i], name) && forall j :: 0 <= j < i ==> !Bears(s, s.listed[j], name)
  }

  lemma {:induction false} LookupIsFirst(s: Lobby, listed: seq<Ref>, name: Text, irc: bool) returns (i: nat)
    requires Lookup(s, listed, name, irc).Some?
    ensures i < |listed| && Lookup(s, listed, name, irc) == Some(listed[i])
    ensures At(s, listed[i]).name == name && (At(s, listed[i]).perm == Irc) == irc
    ensures forall j :: 0 <= j < i ==> !(At(s, listed[j]).name == name && (At(s, listed[j]).perm == Irc) == irc)
  {
    if At(s, listed[0]).name == name && (At(s, listed[0]).perm == Irc) == irc {
      i := 0;
    } else {
      var k := LookupIsFirst(s, listed[1..], name, irc);
      i := k + 1;
      forall j | 0 <= j < i ensures !(At(s, listed[j]).name == name && (At(s, listed[j]).perm == Irc) == irc) {
        if j > 0 { assert listed[1..][j - 1] == listed[j]; }
      }
    }
  }

  lemma FirstIsFound(s: Lobby, name: Text, i: nat)
    requires FirstOf(s, name, i)
    ensures HasClient(s, name) == Some(s.listed[i])
  {
    LookupIs(s, s.listed, name, false);
    var k := LookupIsFirst(s, s.listed, name, false);
    assert Bears(s, s.listed[k], name);
    assert !(k < i) && !(i < k);
  }

  // him is who cmd claims to be: the same version, build and nonce.
  ghost predicate Recognised(me: Client, cmd: Command, him: Client)
    requires cmd.Relogin?
  {
    var nonce := if cmd.registered || cmd.version >= 5 then cmd.nonce else Some([]);
    && me.phase == Handshake && !cmd.banned && nonce == Some(him.nonce)
    && cmd.version == him.version && cmd.build == him.build
  }

  // r has become what him was.
  ghost predicate SameIdentity(c: Client, him: Client) {
    && c.version == him.version && c.perm == him.perm && c.name == him.name && c.build == him.build
    && c.game == him.game && c.nonce == him.nonce && c.attempt == ByRelogin
  }

  // r stands in the place of the i-th of the list, or waits for its answer.
  ghost predicate TakesIdentity(s: Lobby, t: Lobby, r: Ref, prior: Ref) {
    var him := At(s, prior);
    && |t.conns| == |s.conns| && SameIdentity(At(t, r), him) && At(t, r).pending == At(s, r).pending
    && (forall y :: y != r && y != prior ==> At(t, y) == At(s, y))
    && if him.phase == Gone
       then
         && At(t, r).phase == Connected && At(t, prior).phase == Gone && At(t, prior).pending == him.pending
         && forall y :: y in t.listed <==> (y in s.listed && y != prior) || y == r
       else At(t, r).phase == Handshake && t.listed == s.listed && At(t, prior) == him.(pending := Some(r))
  }

  // In every possible run, a RELOGIN of a client that has not logged in yet is granted exactly if the first
  // listed player of the name is recognised. Then the client becomes that player in everything, at once if
  // that player is disconnected, and otherwise when it turns out to be; else its connection ends.
  lemma {:induction false} ReloginIsDecided(db: Db, es: seq<Event>, r: Ref, cmd: Command)
    requires
      var s := Run(db, es);
      && cmd.Relogin? && GoodDb(db) && PossibleRun(db, es) && Possible(s, Packet(r, cmd))
      && s.conns[r].phase != Connected
    ensures
      var s, t := Run(db, es), Step(db, Run(db, es), Packet(r, cmd));
      if exists i: nat :: FirstOf(s, cmd.name, i) && Recognised(s.conns[r], cmd, At(s, s.listed[i]))
      then exists i: nat :: FirstOf(s, cmd.name, i) && TakesIdentity(s, t, r, s.listed[i])
      else SentAway(s, t, r)
  {
    PossibleRunKeeps(db, es);
    var s := Run(db, es);
    ReadyToLogin(db, s, r);
    assert Step(db, s, Packet(r, cmd)) == HandleRelogin(db, s, r, cmd);
    if exists i: nat :: FirstOf(s, cmd.name, i) && Recognised(s.conns[r], cmd, At(s, s.listed[i])) {
      var i: nat :| FirstOf(s, cmd.name, i) && Recognised(s.conns[r], cmd, At(s, s.listed[i]));
      ReloginGranted(db, s, r, cmd, i);
    } else {
      ReloginDenied(db, s, r, cmd);
    }
  }

  lemma {:induction false} ReloginGranted(db: Db, s: Lobby, r: Ref, cmd: Command, i: nat)
    requires cmd.Relogin? && Attempting(s, r, At(s, r)) && FirstOf(s, cmd.name, i)
    requires Recognised(At(s, r), cmd, At(s, s.listed[i]))
    ensures TakesIdentity(s, HandleRelogin(db, s, r, cmd), r, s.listed[i])
  {
    LobbyScans.ReloginIs(db, s, r, cmd);
    FirstIsFound(s, cmd.name, i);
    IdentityTaken(s, r, s.listed[i]);
  }

  lemma {:induction false} ReloginDenied(db: Db, s: Lobby, r: Ref, cmd: Command)
    requires cmd.Relogin? && Attempting(s, r, At(s, r))
    requires forall i: nat :: FirstOf(s, cmd.name, i) ==> !Recognised(At(s, r), cmd, At(s, s.listed[i]))
    ensures SentAway(s, HandleRelogin(db, s, r, cmd), r)
  {
    LobbyScans.ReloginIs(db, s, r, cmd);
    if HasClient(s, cmd.name).Some? {
      var i := LookupIsFirst(s, s.listed, cmd.name, false);
      assert FirstOf(s, cmd.name, i);
    }
  }

  lemma {:induction false} IdentityTaken(s: Lobby, r: Ref, prior: Ref)
    requires Attempting(s, r, At(s, r)) && prior in s.listed && At(s, r).phase == Handshake
    ensures TakesIdentity(s, LobbyScans.ReloginGoesOn(s, r, prior), r, prior)
  {
    var t := LobbyScans.Impersonated(s, r, prior);
    if At(s, prior).phase == Gone { PlaceGiven(t, r, prior); }
  }

  lemma PlaceGiven(t: Lobby, r: Ref, prior: Ref)
    requires ListedOk(t) && r < |t.conns| && r !in t.listed && prior in t.listed
    ensures
      var u := SuccessfulRelogin(t, r, prior);
      && (forall y :: y in u.listed <==> (y in t.listed && y != prior) || y == r)
      && At(u, r).phase == Connected && (forall y :: y != r && y != prior ==> At(u, y) == At(t, y))
      && At(u, r) == At(t, r).(phase := Connected, joined := true, timers := At(u, r).timers)
      && At(u, prior) == At(t, prior).(timers := At(u, prior).timers) && |u.conns| == |t.conns|
  {
    StrikeIs(t.listed, prior);
  }

  // ---------------------------------------------------------------- answers and silence

  // In every possible run, when a client that somebody waits for after a RELOGIN says anything, the RELOGIN has
  // failed: its connection ends.
  lemma {:induction false} AnswerEndsTheRelogin(db: Db, es: seq<Event>, x: Ref, cmd: Command, p: Ref)
    requires
      var s := Run(db, es);
      && GoodDb(db) && PossibleRun(db, es) && Possible(s, Packet(x, cmd))
      && s.conns[x].pending == Some(p) && At(s, p).attempt == ByRelogin
    ensures
      var t := Step(db, Run(db, es), Packet(x, cmd));
      At(t, p).phase == Gone && p !in t.listed
  {
    var s := Run(db, es);
    PossibleRunKeeps(db, es);
    LobbyTheorems.WaiterOf(db, s, x, p, false);
    LobbyProofs.SenderStays(db, s, x);
    var u := Answer(db, s, x);
    assert u == Put(Disconnect(s, p), x, At(s, x).(pending := None));
    LobbyTheorems.HandleLeavesOthers(db, u, x, cmd, p);
    OnlyTheSenderMoves(db, u, x, cmd, p);
  }

  lemma OnlyTheSenderMoves(db: Db, u: Lobby, x: Ref, cmd: Command, p: Ref)
    requires x < |u.conns| && u.conns[x].phase == Connected && p != x && p !in u.listed
    ensures p !in Handle(db, u, x, cmd).listed
  {
    if IsAttempt(cmd) { ConnectedIsRefused(db, u, x, cmd); }
    StrikeOthers(u.listed, x);
  }

  // In every possible run, when a listed client falls silent, whoever waits for it takes its place: after a
  // LOGIN that is still in the handshake with its name and its game and under the rights it had when it was
  // told to wait, after a RELOGIN as it is. A LOGIN that is not in the handshake any more ends.
  lemma {:induction false} SilenceHandsOver(db: Db, es: seq<Event>, x: Ref, e: Event, p: Ref)
    requires
      var s := Run(db, es);
      && GoodDb(db) && PossibleRun(db, es) && (e == PingUnanswered(x) || e == StreamEnded(x)) && Possible(s, e)
      && s.conns[x].phase != Gone && s.conns[x].pending == Some(p) && x in s.listed
    ensures
      var s, t := Run(db, es), Step(db, Run(db, es), e);
      HandsOver(s, t, x, p)
  {
    var s := Run(db, es);
    PossibleRunKeeps(db, es);
    LobbyTheorems.WaiterOf(db, s, x, p, false);
    assert Step(db, s, e) == FailedPong(s, x);
    if s.conns[p].attempt == ByRelogin { PlaceHandedOn(s, x, p); } else { PlaceHandedOver(s, x, p); }
  }

  lemma {:induction false} PlaceHandedOn(s: Lobby, x: Ref, p: Ref)
    requires ListedOk(s) && x in s.listed && s.conns[x].pending == Some(p) && x != p && p < |s.conns| && p !in s.listed
    requires s.conns[p].attempt == ByRelogin && s.conns[p].name == s.conns[x].name && s.conns[p].candidates == None
    ensures HandsOver(s, FailedPong(s, x), x, p)
  {
    PlaceGiven(Disconnect(s, x), p, x);
  }

  lemma {:induction false} PlaceHandedOver(s: Lobby, x: Ref, p: Ref)
    requires ListedOk(s) && x in s.listed && s.conns[x].pending == Some(p) && x != p && p < |s.conns| && p !in s.listed
    requires s.conns[p].attempt == ByLogin && s.conns[p].candidates.Some? && s.conns[p].perm != Irc
    ensures HandsOver(s, FailedPong(s, x), x, p)
  {
    PlaceLeft(Disconnect(s, x), p, x);
  }

  ghost predicate HandsOver(s: Lobby, t: Lobby, x: Ref, p: Ref) {
    var entered := At(s, p).attempt == ByRelogin || At(s, p).phase == Handshake;
    && At(t, x).phase == Gone && At(t, p).phase == (if entered then Connected else Gone)
    && At(t, p).name == At(s, x).name && At(t, p).perm == At(s, p).perm
    && (At(s, p).attempt == ByLogin ==> At(t, p).game == At(s, x).game)
    && (forall y :: y in t.listed <==> (y in s.listed && y != x) || (entered && y == p))
    && (forall y :: y != p && y != x ==> At(t, y) == At(s, y))
  }

  lemma {:induction false} PlaceLeft(u: Lobby, p: Ref, x: Ref)
    requires ListedOk(u) && p < |u.conns| && p !in u.listed && x in u.listed && u.conns[p].perm != Irc
    ensures
      var t := TakeOver(u, p, x);
      && At(t, p).phase == (if u.conns[p].phase == Handshake then Connected else Gone)
      && At(t, p).name == At(u, x).name && At(t, p).perm == u.conns[p].perm && At(t, p).game == At(u, x).game
      && (forall y :: y in t.listed <==> (y in u.listed && y != x) || (u.conns[p].phase == Handshake && y == p))
      && At(t, x).phase == At(u, x).phase && (forall y :: y != p && y != x ==> At(t, y) == At(u, y))
  {
    StrikeIs(u.listed, x);
    assert TakeName(u, p, x).listed == Strike(u.listed, x);
  }

  // ---------------------------------------------------------------- leaving for good

  // x has left the list, disconnected or not, and everybody else is as before.
  ghost predicate Leaves(s: Lobby, t: Lobby, x: Ref) {
    && (forall y :: y in t.listed <==> y in s.listed && y != x)
    && (forall y :: y != x ==> At(t, y) == At(s, y)) && t.notices == s.notices
  }

  lemma RemovalTakesOne(s: Lobby, x: Ref, c: Client)
    requires ListedOk(s) && x in s.listed
    ensures
      var t := RemoveClient(Put(s, x, c), x);
      Leaves(s, t, x) && At(t, x).phase == c.phase && At(t, x).game == c.game && At(t, x).name == c.name
  {
    StrikeIs(s.listed, x);
  }

  // In every possible run, kicking a player takes the first listed player of the name off the list and
  // disconnects it, unless that is an administrator; and where there is none, nothing happens.
  lemma {:induction false} KickIsDecided(db: Db, es: seq<Event>, name: Text)
    requires GoodDb(db) && PossibleRun(db, es)
    ensures
      var s, t := Run(db, es), Step(db, Run(db, es), Kick(name));
      if exists i: nat :: FirstOf(s, name, i) && At(s, s.listed[i]).perm != Superuser
      then exists i: nat :: FirstOf(s, name, i) && Leaves(s, t, s.listed[i]) && At(t, s.listed[i]).phase == Gone
      else t == s
  {
    PossibleRunKeeps(db, es);
    KickOf(db, Run(db, es), name);
  }

  lemma {:induction false} KickOf(db: Db, s: Lobby, name: Text)
    requires ListedOk(s)
    ensures
      var t := Step(db, s, Kick(name));
      if exists i: nat :: FirstOf(s, name, i) && At(s, s.listed[i]).perm != Superuser
      then exists i: nat :: FirstOf(s, name, i) && Leaves(s, t, s.listed[i]) && At(t, s.listed[i]).phase == Gone
      else t == s
  {
    LobbyScans.KickIs(db, s, name);
    var found := HasClient(s, name);
    if found.Some? {
      var i := LookupIsFirst(s, s.listed, name, false);
      assert FirstOf(s, name, i);
      forall j: nat | FirstOf(s, name, j) ensures s.listed[j] == found.value { FirstIsFound(s, name, j); }
      RemovalTakesOne(s, found.value, At(s, found.value).(phase := Gone));
    } else {
      forall j: nat ensures !FirstOf(s, name, j) { if FirstOf(s, name, j) { FirstIsFound(s, name, j); } }
    }
  }

  // In every possible run, the timer that forgets a client takes it off the list, out of its game, exactly if
  // it is the first listed player of its name; otherwise nothing happens.
  lemma {:induction false} ForgetIsDecided(db: Db, es: seq<Event>, r: Ref)
    requires GoodDb(db) && PossibleRun(db, es) && r < |Run(db, es).conns|
    ensures
      var s, t := Run(db, es), Step(db, Run(db, es), Forget(r));
      if exists i: nat :: FirstOf(s, At(s, r).name, i) && s.listed[i] == r
      then Leaves(s, t, r) && At(t, r).game == None
      else t == s
  {
    PossibleRunKeeps(db, es);
    ForgetOf(db, Run(db, es), r);
  }

  lemma {:induction false} ForgetOf(db: Db, s: Lobby, r: Ref)
    requires ListedOk(s)
    ensures
      var t := Step(db, s, Forget(r));
      if exists i: nat :: FirstOf(s, At(s, r).name, i) && s.listed[i] == r
      then Leaves(s, t, r) && At(t, r).game == None
      else t == s
  {
    var found := HasClient(s, At(s, r).name);
    if found.Some? {
      var i := LookupIsFirst(s, s.listed, At(s, r).name, false);
      assert FirstOf(s, At(s, r).name, i);
      forall j: nat | FirstOf(s, At(s, r).name, j) ensures s.listed[j] == found.value {
        FirstIsFound(s, At(s, r).name, j);
      }
      if found.value == r { RemovalTakesOne(s, r, At(s, r).(game := None)); }
    } else {
      forall j: nat ensures !FirstOf(s, At(s, r).name, j) {
        if FirstOf(s, At(s, r).name, j) { FirstIsFound(s, At(s, r).name, j); }
      }
    }
  }

  // In every valid run, the timer of a listed player forgets it.
  lemma {:induction false} ForgottenIfListed(db: Db, es: seq<Event>, r: Ref)
    requires GoodDb(db) && ValidRun(db, es) && r in Run(db, es).listed && At(Run(db, es), r).perm != Irc
    ensures r !in Step(db, Run(db, es), Forget(r)).listed
  {
    RunKeeps(db, es);
    var s := Run(db, es);
    LookupIs(s, s.listed, At(s, r).name, false);
    assert HasClient(s, At(s, r).name) == Some(r);
    RemovalTakesOne(s, r, At(s, r).(game := None));
  }

  // In every possible run, a client that leaves is off the list and disconnected, and is in no game.
  lemma {:induction false} LeavingIsFinal(db: Db, es: seq<Event>, r: Ref)
    requires GoodDb(db) && PossibleRun(db, es) && Possible(Run(db, es), Packet(r, Leave))
    ensures
      var t := Step(db, Run(db, es), Packet(r, Leave));
      r !in t.listed && At(t, r).phase == Gone && At(t, r).game == None
  {
    var s := Run(db, es);
    PossibleRunKeeps(db, es);
    LobbyProofs.SenderStays(db, s, r);
    var u := Answer(db, s, r);
    assert Step(db, s, Packet(r, Leave)) == RemoveClient(Disconnect(Put(u, r, At(u, r).(game := None)), r), r);
    LobbyScans.PutAgain(u, r);
    if r in u.listed { RemovalTakesOne(u, r, At(u, r).(game := None, phase := Gone)); }
  }

  // ---------------------------------------------------------------- connections

  // In every possible run, a connection that nobody waits for ends without touching the list or anybody else:
  // by a timeout, by silence, with its stream, by garbage, or by a LOGIN or CHECK_PWD that cannot be unpacked,
  // whose readable fields stay behind.
  lemma {:induction false} ConnectionsEnd(db: Db, es: seq<Event>, e: Event, r: Ref, cmd: Command)
    requires
      && GoodDb(db) && PossibleRun(db, es) && Possible(Run(db, es), e) && At(Run(db, es), r).pending == None
      && (cmd == Garbage || (cmd.Malformed? && At(Run(db, es), r).phase != Connected))
      && e in {Timeout(r), PingUnanswered(r), StreamEnded(r), Packet(r, cmd)}
    ensures
      var s, t := Run(db, es), Step(db, Run(db, es), e);
      var c := At(s, r).(phase := Gone);
      LobbyProofs.OnlyBecomes(s, t, r,
        if e == Packet(r, cmd) && cmd.Malformed?
        then c.(version := cmd.version, name := if cmd.gotName == None then c.name else cmd.gotName.value,
                build := if cmd.gotBuild == None then c.build else cmd.gotBuild.value)
        else c)
  {
    var s := Run(db, es);
    PossibleRunKeeps(db, es);
    if e == StreamEnded(r) && At(s, r).phase == Gone { assert s.conns[r].(phase := Gone) == s.conns[r]; }
  }

  // ---------------------------------------------------------------- IRC users

  // In every possible run, after an IRC user has joined there is exactly one of the name; after it has left,
  // the first of the name is gone; and players are left alone.
  lemma {:induction false} IrcUsersComeAndGo(db: Db, es: seq<Event>, name: Text)
    requires GoodDb(db) && PossibleRun(db, es)
    ensures
      var s, t := Run(db, es), Step(db, Run(db, es), IrcJoin(name));
      if exists x :: x in s.listed && At(s, x).perm == Irc && At(s, x).name == name then t == s
      else
        && t.listed == s.listed + [|s.conns|] && t.conns[..|s.conns|] == s.conns
        && At(t, |s.conns|).perm == Irc && At(t, |s.conns|).name == name && At(t, |s.conns|).phase == Connected
    ensures
      var s, t := Run(db, es), Step(db, Run(db, es), IrcLeave(name));
      if exists x :: x in s.listed && At(s, x).perm == Irc && At(s, x).name == name
      then exists x :: x in s.listed && At(s, x).perm == Irc && At(s, x).name == name && Leaves(s, t, x)
      else t == s
  {
    var s := Run(db, es);
    PossibleRunKeeps(db, es);
    LobbyScans.IrcJoinIs(db, s, name);
    LookupIs(s, s.listed, name, true);
    var found := HasIrcClient(s, name);
    if found.Some? { IrcUserLeaves(db, s, name, found.value); }
  }

  lemma IrcUserLeaves(db: Db, s: Lobby, name: Text, x: Ref)
    requires ListedOk(s) && HasIrcClient(s, name) == Some(x) && x in s.listed
    ensures Leaves(s, Step(db, s, IrcLeave(name)), x)
  {
    assert s.conns[x := s.conns[x]] == s.conns;
    RemovalTakesOne(s, x, At(s, x));
  }

  // ---------------------------------------------------------------- the sanity check

  // Two listed players, or two IRC users, share the name.
  ghost predicate Twice(s: Lobby, listed: seq<Ref>, name: Text, irc: bool) {
    exists i, j ::
      && 0 <= i < j < |listed| && At(s, listed[i]).name == name && At(s, listed[j]).name == name
      && (At(s, listed[i]).perm == Irc) == (At(s, listed[j]).perm == Irc) == irc
  }

  lemma {:induction false} NamesakesCount(s: Lobby, listed: seq<Ref>, name: Text, irc: bool)
    ensures Namesakes(s, listed, name, irc) > 0 <==>
      exists i :: 0 <= i < |listed| && At(s, listed[i]).name == name && (At(s, listed[i]).perm == Irc) == irc
    ensures Namesakes(s, listed, name, irc) > 1 <==> Twice(s, listed, name, irc)
  {
    if listed != [] {
      var n := |listed| - 1;
      var before := listed[..n];
      NamesakesCount(s, before, name, irc);
      forall i | 0 <= i < n ensures before[i] == listed[i] {}
      if Twice(s, before, name, irc) {
        var i, j :|
          && 0 <= i < j < |before| && At(s, before[i]).name == name && At(s, before[j]).name == name
          && (At(s, before[i]).perm == Irc) == (At(s, before[j]).perm == Irc) == irc;
        assert listed[i] == before[i] && listed[j] == before[j];
      }
    }
  }

  // The sanity check in front of a removal warns exactly if a name is listed twice in one kind.
  lemma {:induction false} SanityCheckWarns(s: Lobby, r: Ref)
    ensures
      var name := At(s, r).name;
      RemoveClient(s, r).warnings > s.warnings <==>
        Twice(s, s.listed, name, true) || Twice(s, s.listed, name, false)
  {
    NamesakesCount(s, s.listed, At(s, r).name, true);
    NamesakesCount(s, s.listed, At(s, r).name, false);
  }
}
