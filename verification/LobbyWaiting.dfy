/** Nobody waits in vain (wlms/client.go): whoever has to wait for another client's answer is remembered by that
    client, with the one exception of a RELOGIN that takes its place. */
module LobbyWaiting {
  import opened GoText
  import opened LobbyModel
  import opened LobbyInvariant
  import opened LobbySteps
  import opened LobbyOutcomes
  import opened LobbyDepartures
  import LobbyTheorems
  import LobbyScans
  import LobbyProofs
  import LobbyLate
  import FreeName

  // In the middle of an attempt, and not disconnected.
  ghost predicate Waiting(c: Client) {
    c.attempt != NotYet && !c.joined && c.phase == Handshake
  }

  ghost predicate Awaited(s: Lobby, c: Ref) {
    exists x :: 0 <= x < |s.conns| && s.conns[x].pending == Some(c)
  }

  // Whoever waits is awaited by somebody's answer.
  ghost predicate NobodyForgotten(s: Lobby) {
    forall c :: 0 <= c < |s.conns| && Waiting(s.conns[c]) ==> Awaited(s, c)
  }

  // ---------------------------------------------------------------- what steps do to those who wait

  // Nobody but c has begun to wait, and whoever was awaited still is.
  ghost predicate Steady(s: Lobby, t: Lobby, c: Option<Ref>) {
    && |s.conns| <= |t.conns|
    && (forall x :: 0 <= x < |s.conns| && s.conns[x].pending.Some? ==> t.conns[x].pending == s.conns[x].pending)
    && (forall x :: 0 <= x < |t.conns| && Waiting(t.conns[x]) && c != Some(x) ==> x < |s.conns| && Waiting(s.conns[x]))
  }

  // c has got somebody to wait for.
  ghost predicate Newly(s: Lobby, t: Lobby, c: Ref) {
    exists y :: 0 <= y < |t.conns| && At(s, y).pending == None && t.conns[y].pending == Some(c)
  }

  // c has been dealt with: it is let in, sent away, or waits for somebody nobody else waits for.
  ghost predicate Settled(s: Lobby, t: Lobby, c: Ref) {
    Steady(s, t, Some(c)) && c < |t.conns| && (Waiting(t.conns[c]) ==> Newly(s, t, c))
  }

  lemma SteadyOn(s: Lobby, t: Lobby, u: Lobby, c: Option<Ref>)
    requires Steady(s, t, c) && Steady(t, u, c)
    ensures Steady(s, u, c)
  {
  }

  // c is only given another record before it is dealt with.
  lemma SettledOn(s: Lobby, t: Lobby, u: Lobby, c: Ref)
    requires Steady(s, t, Some(c)) && Settled(t, u, c)
    requires forall y :: At(s, y).pending.Some? ==> At(t, y).pending.Some?
    ensures Settled(s, u, c)
  {
    SteadyOn(s, t, u, Some(c));
    if Waiting(u.conns[c]) {
      var y :| 0 <= y < |u.conns| && At(t, y).pending == None && u.conns[y].pending == Some(c);
      assert At(s, y).pending == None;
    }
  }

  lemma SteadyForgetsNobody(s: Lobby, t: Lobby)
    requires NobodyForgotten(s) && Steady(s, t, None)
    ensures NobodyForgotten(t)
  {
    forall c | 0 <= c < |t.conns| && Waiting(t.conns[c]) ensures Awaited(t, c) {
      assert Awaited(s, c);
      var x :| 0 <= x < |s.conns| && s.conns[x].pending == Some(c);
      assert t.conns[x].pending == Some(c);
    }
  }

  lemma SettledForgetsNobody(s: Lobby, t: Lobby, c: Ref)
    requires NobodyForgotten(s) && Settled(s, t, c)
    ensures NobodyForgotten(t)
  {
    forall d | 0 <= d < |t.conns| && Waiting(t.conns[d]) ensures Awaited(t, d) {
      if d != c {
        assert Awaited(s, d);
        var x :| 0 <= x < |s.conns| && s.conns[x].pending == Some(d);
        assert t.conns[x].pending == Some(d);
      }
    }
  }

  lemma PutSteady(s: Lobby, r: Ref, c: Client, w: Option<Ref>)
    requires r < |s.conns| ==> s.conns[r].pending.Some? ==> c.pending == s.conns[r].pending
    requires r < |s.conns| && Waiting(c) && w != Some(r) ==> Waiting(s.conns[r])
    ensures Steady(s, Put(s, r, c), w)
  {
  }

  lemma RemovalSteady(s: Lobby, r: Ref, w: Option<Ref>)
    ensures Steady(s, RemoveClient(s, r), w)
  {
  }

  lemma LoginDoneSettles(s: Lobby, c: Ref)
    requires c < |s.conns|
    ensures Settled(s, LoginDone(s, c), c)
  {
  }

  lemma TakeOverSettles(s: Lobby, c: Ref, prior: Ref)
    requires c < |s.conns|
    ensures Settled(s, TakeOver(s, c, prior), c)
  {
    var u := Put(s, c, At(s, c).(name := At(s, prior).name, game := At(s, prior).game));
    PutSteady(s, c, At(u, c), Some(c));
    RemovalSteady(u, prior, Some(c));
    SteadyOn(s, u, TakeName(s, c, prior), Some(c));
    LoginDoneSettles(TakeName(s, c, prior), c);
    SettledOn(s, TakeName(s, c, prior), TakeOver(s, c, prior), c);
  }

  lemma FindUnconnectedSettles(db: Db, s: Lobby, c: Ref)
    requires c < |s.conns|
    ensures Settled(s, FindUnconnectedName(db, s, c), c)
  {
    var me, k := s.conns[c], FreeIndex(db, s, c);
    var name := FreeName.Numbered(me.name, if k > FreeName.TRIES then FreeName.TRIES else k);
    var t := Put(s, c, me.(name := name));
    LobbyScans.SearchEnds(db, s, t, c, k);
    LobbyScans.PutAgain(s, c);
    var d := t.conns[c].(nonce := LobbyScans.NonceFor(db, t.conns[c], me.name), perm := Unregistered);
    PutSteady(s, c, d, Some(c));
    LoginDoneSettles(Put(s, c, d), c);
    SettledOn(s, Put(s, c, d), LoginDone(Put(s, c, d), c), c);
  }

  lemma ProbeSettles(s: Lobby, c: Ref, prior: Ref)
    requires c < |s.conns| && prior < |s.conns| && s.conns[prior].pending == None && s.conns[c].pending == None
    ensures Settled(s, Probe(s, c, prior), c)
  {
    assert Probe(s, c, prior).conns[prior].pending == Some(c);
  }

  lemma {:induction false} CheckSettles(db: Db, s: Lobby, c: Ref)
    requires c < |s.conns| && s.conns[c].pending == None
    requires forall k :: 0 <= k < |CandidatesOf(s.conns[c])| ==> CandidatesOf(s.conns[c])[k] < |s.conns|
    ensures Settled(s, CheckCandidates(db, s, c), c)
    decreases |CandidatesOf(At(s, c))|
  {
    var cs := CandidatesOf(s.conns[c]);
    if s.conns[c].phase == Handshake && cs == [] {
      FindUnconnectedSettles(db, s, c);
    } else if s.conns[c].phase == Handshake {
      var t := Put(s, c, Downgrade(db, s.conns[c], At(s, cs[0]).name).(candidates := Some(cs[1..])));
      PutSteady(s, c, t.conns[c], Some(c));
      if At(t, cs[0]).pending.Some? {
        CheckSettles(db, t, c);
      } else if At(t, cs[0]).phase == Gone {
        TakeOverSettles(t, c, cs[0]);
      } else {
        ProbeSettles(t, c, cs[0]);
      }
      SettledOn(s, t, CheckCandidates(db, s, c), c);
    }
  }

  lemma {:induction false} FindReplaceSettles(db: Db, s: Lobby, c: Ref, me: Client, registered: bool)
    requires c < |s.conns| && s.conns[c].pending == None && me.pending == None && ListedOk(s) && c !in s.listed
    ensures Settled(s, FindReplaceCandidates(db, Put(s, c, me), c, registered), c)
  {
    var u := Put(s, c, me);
    var cs := FindClientsToReplace(u, me.nonce, me.name);
    var t := Put(s, c, me.(candidates := Some(cs), quota := |cs|, probes := 0));
    assert Put(u, c, t.conns[c]) == t;
    PutSteady(s, c, t.conns[c], Some(c));
    CandidatesAreListed(u, me.nonce, me.name);
    forall k | 0 <= k < |cs| ensures cs[k] < |t.conns| {
      assert cs[k] in u.listed;
    }
    CheckSettles(db, t, c);
    LoginDoneSettles(t, c);
    FindUnconnectedSettles(db, t, c);
    SettledOn(s, t, FindReplaceCandidates(db, u, c, registered), c);
  }

  // ---------------------------------------------------------------- attempts

  // r is refused or asked something: it does not wait.
  lemma AskedSettles(s: Lobby, r: Ref, c: Client)
    requires r < |s.conns| && s.conns[r].pending == None && !Waiting(c)
    ensures Settled(s, Put(s, r, c), r)
  {
  }

  lemma {:induction false} LoginSettles(db: Db, s: Lobby, r: Ref, cmd: Command)
    requires cmd.Login? && Attempting(s, r, At(s, r)) && s.conns[r].pending == None
    ensures Settled(s, HandleLogin(db, s, r, cmd), r)
  {
    LobbyScans.LoginIs(db, s, r, cmd);
    LobbyScans.PutAgain(s, r);
    var c := LobbyScans.AfterLogin(s.conns[r], cmd);
    var t := Put(s, r, c);
    AskedSettles(s, r, c.(phase := Gone));
    AskedSettles(s, r, s.conns[r].(phase := Gone));
    FindReplaceSettles(db, s, r, c, false);
    FindReplaceSettles(db, s, r, c.(perm := Permissions(db, c.name)), true);
    ChallengeSettles(db, s, r, c, cmd.challenge);
  }

  lemma ChallengeSettles(db: Db, s: Lobby, r: Ref, c: Client, challenge: Option<Text>)
    requires r < |s.conns| && s.conns[r].pending == None
    ensures Settled(s, LobbyScans.ChallengeSent(db, Put(s, r, c), r, challenge), r)
  {
    var u := LobbyScans.ChallengeSent(db, Put(s, r, c), r, challenge);
    AskedSettles(s, r, At(u, r));
    LobbyScans.PutAgain(s, r);
  }

  lemma {:induction false} PasswordSettles(db: Db, s: Lobby, r: Ref, response: Text)
    requires Attempting(s, r, At(s, r)) && s.conns[r].pending == None
    ensures Settled(s, HandlePassword(db, s, r, response), r)
  {
    var me := s.conns[r];
    var nonce := DowngradedNonce(db, me.name, me.name);
    FindReplaceSettles(db, s, r, me.(perm := Permissions(db, me.name), nonce := nonce, attempt := ByLogin), true);
    AskedSettles(s, r, me.(phase := Gone));
    AskedSettles(s, r, me.(phase := Handshake, attempt := NotYet));
  }

  // The RELOGIN of r is granted, but its answer has to be waited for, and somebody waits for it already.
  ghost predicate Displaces(s: Lobby, r: Ref, cmd: Command, prior: Ref) {
    && cmd.Relogin? && (exists i: nat :: FirstOf(s, cmd.name, i) && s.listed[i] == prior)
    && Recognised(At(s, r), cmd, At(s, prior)) && At(s, prior).phase != Gone
    && At(s, prior).pending.Some? && Waiting(At(s, At(s, prior).pending.value))
  }

  ghost predicate DisplacesSomebody(s: Lobby, e: Event) {
    e.Packet? && At(s, e.r).phase != Connected && exists prior :: Displaces(s, e.r, e.cmd, prior)
  }

  lemma {:induction false} ReloginForgetsNobody(db: Db, s: Lobby, r: Ref, cmd: Command)
    requires cmd.Relogin? && Attempting(s, r, At(s, r)) && s.conns[r].pending == None
    requires NobodyForgotten(s) && !exists prior :: Displaces(s, r, cmd, prior)
    ensures NobodyForgotten(HandleRelogin(db, s, r, cmd))
  {
    if exists i: nat :: FirstOf(s, cmd.name, i) && Recognised(s.conns[r], cmd, At(s, s.listed[i])) {
      var i: nat :| FirstOf(s, cmd.name, i) && Recognised(s.conns[r], cmd, At(s, s.listed[i]));
      assert !Displaces(s, r, cmd, s.listed[i]);
      ReloginGranted(db, s, r, cmd, i);
      IdentityForgetsNobody(s, HandleRelogin(db, s, r, cmd), r, s.listed[i]);
    } else {
      ReloginDenied(db, s, r, cmd);
      SentAwaySettles(s, HandleRelogin(db, s, r, cmd), r);
    }
  }

  lemma SentAwaySettles(s: Lobby, t: Lobby, r: Ref)
    requires SentAway(s, t, r) && NobodyForgotten(s) && r < |s.conns| && s.conns[r].pending == None
    ensures NobodyForgotten(t)
  {
    assert forall x :: 0 <= x < |s.conns| && x != r ==> t.conns[x] == At(t, x) == At(s, x);
    SettledForgetsNobody(s, t, r);
  }

  lemma {:induction false} IdentityForgetsNobody(s: Lobby, t: Lobby, r: Ref, prior: Ref)
    requires TakesIdentity(s, t, r, prior) && NobodyForgotten(s) && r < |s.conns| && s.conns[r].pending == None
    requires prior < |s.conns| && prior != r && s.conns[prior].joined
    requires At(s, prior).phase != Gone && At(s, prior).pending.Some? ==> !Waiting(At(s, At(s, prior).pending.value))
    ensures NobodyForgotten(t)
  {
    forall c | 0 <= c < |t.conns| && Waiting(t.conns[c]) ensures Awaited(t, c) {
      assert t.conns[c] == At(t, c);
      if c == r {
        assert t.conns[prior].pending == Some(r);
      } else if c != prior {
        assert s.conns[c] == At(s, c) && Awaited(s, c);
        var x :| 0 <= x < |s.conns| && s.conns[x].pending == Some(c);
        assert x != r && (x != prior ==> At(t, x) == At(s, x));
        assert t.conns[x].pending == Some(c);
      }
    }
  }

  // ---------------------------------------------------------------- every step

  lemma {:induction false} AttemptForgetsNobody(db: Db, s: Lobby, r: Ref, cmd: Command)
    requires IsAttempt(cmd) && Attempting(s, r, At(s, r)) && s.conns[r].pending == None && NobodyForgotten(s)
    requires !exists prior :: Displaces(s, r, cmd, prior)
    ensures NobodyForgotten(Handle(db, s, r, cmd))
  {
    if cmd.Relogin? {
      ReloginForgetsNobody(db, s, r, cmd);
    } else {
      if cmd.Login? {
        LoginSettles(db, s, r, cmd);
      } else if cmd.Password? {
        PasswordSettles(db, s, r, cmd.response);
      } else {
        AskedSettles(s, r, At(Handle(db, s, r, cmd), r));
      }
      SettledForgetsNobody(s, Handle(db, s, r, cmd), r);
    }
  }

  // What is not about logging in.
  lemma {:induction false} OtherSteady(db: Db, s: Lobby, r: Ref, cmd: Command)
    requires r < |s.conns| && (!IsAttempt(cmd) || s.conns[r].phase == Connected)
    ensures Steady(s, Handle(db, s, r, cmd), None)
  {
    if IsAttempt(cmd) {
      ConnectedIsRefused(db, s, r, cmd);
      PutSteady(s, r, s.conns[r].(phase := Gone), None);
    } else if cmd.Leave? {
      var t := Disconnect(Put(s, r, s.conns[r].(game := None)), r);
      LobbyScans.PutAgain(s, r);
      PutSteady(s, r, At(t, r), None);
      RemovalSteady(t, r, None);
      SteadyOn(s, t, RemoveClient(t, r), None);
    } else {
      PutSteady(s, r, At(Handle(db, s, r, cmd), r), None);
    }
  }

  // Whoever waits for x is dealt with, and x need not remember it any more.
  lemma {:induction false} AnswerForgetsNobody(db: Db, s: Lobby, x: Ref)
    requires Inv(db, s, None, false) && x < |s.conns| && s.conns[x].phase != Gone && NobodyForgotten(s)
    ensures NobodyForgotten(Answer(db, s, x))
  {
    if s.conns[x].pending.Some? {
      var p := s.conns[x].pending.value;
      LobbyTheorems.WaiterOf(db, s, x, p, false);
      assert RecordOk(db, s.conns[p]);
      var t := if s.conns[p].candidates == None then Disconnect(s, p) else CheckCandidates(db, s, p);
      if s.conns[p].candidates == None {
        AskedSettles(s, p, s.conns[p].(phase := Gone));
      } else {
        CandidatesInRange(s, CandidatesOf(s.conns[p]));
        CheckSettles(db, s, p);
      }
      DoneForgetsNobody(s, t, x, p);
    }
  }

  lemma CandidatesInRange(s: Lobby, cs: seq<Ref>)
    requires AllCandidates(s, cs, false)
    ensures forall k :: 0 <= k < |cs| ==> cs[k] < |s.conns|
  {
    assert forall k :: 0 <= k < |cs| ==> Candidate(s, cs[k]);
  }

  lemma {:induction false} DoneForgetsNobody(s: Lobby, t: Lobby, x: Ref, p: Ref)
    requires NobodyForgotten(s) && Settled(s, t, p) && x < |s.conns| && s.conns[x].pending == Some(p)
    ensures NobodyForgotten(Put(t, x, At(t, x).(pending := None)))
  {
    var u := Put(t, x, At(t, x).(pending := None));
    forall c | 0 <= c < |u.conns| && Waiting(u.conns[c]) ensures Awaited(u, c) {
      assert Waiting(t.conns[c]);
      if c == p {
        var y :| 0 <= y < |t.conns| && At(s, y).pending == None && t.conns[y].pending == Some(p);
        assert u.conns[y].pending == Some(p);
      } else {
        assert Awaited(s, c);
        var y :| 0 <= y < |s.conns| && s.conns[y].pending == Some(c);
        assert u.conns[y].pending == Some(c);
      }
    }
  }

  lemma {:induction false} SilenceForgetsNobody(db: Db, s: Lobby, x: Ref)
    requires Inv(db, s, None, false) && x < |s.conns| && NobodyForgotten(s)
    requires s.conns[x].pending.Some? ==> Link(s, None, x, s.conns[x].pending.value)
    ensures NobodyForgotten(FailedPong(s, x))
  {
    var t := Disconnect(s, x);
    PutSteady(s, x, s.conns[x].(phase := Gone), None);
    SteadyForgetsNobody(s, t);
    if s.conns[x].pending.Some? {
      var p := s.conns[x].pending.value;
      assert Waits(db, s, x, p, false);
      TakeOverSettles(t, p, x);
      ReloginSettles(t, p, x);
      SettledForgetsNobody(t, FailedPong(s, x), p);
    }
  }

  lemma ReloginSettles(t: Lobby, p: Ref, x: Ref)
    requires p < |t.conns|
    ensures Settled(t, SuccessfulRelogin(t, p, x), p)
  {
    RemovalSteady(t, x, Some(p));
  }

  lemma {:induction false} EventForgetsNobody(db: Db, s: Lobby, e: Event)
    requires Inv(db, s, None, false) && Possible(s, e) && !e.Packet? && NobodyForgotten(s)
    ensures NobodyForgotten(Step(db, s, e))
  {
    match e
    case StreamEnded(r) =>
      assert Accounted(s, None, r);
      if s.conns[r].phase != Gone { SilenceForgetsNobody(db, s, r); }
    case PingUnanswered(r) => SilenceForgetsNobody(db, s, r);
    case _ =>
      EventSteady(db, s, e);
      SteadyForgetsNobody(s, Step(db, s, e));
  }

  lemma {:induction false} EventSteady(db: Db, s: Lobby, e: Event)
    requires !e.Packet? && !e.StreamEnded? && !e.PingUnanswered?
    ensures Steady(s, Step(db, s, e), None)
  {
    match e
    case Connect =>
    case Timeout(r) => PutSteady(s, r, At(s, r).(phase := Gone), None);
    case Forget(r) => EditedRemovalSteady(s, r, At(s, r).(game := None));
    case Kick(name) => KickSteady(db, s, name);
    case IrcJoin(name) => LobbyScans.IrcJoinIs(db, s, name);
    case IrcLeave(name) =>
      if HasIrcClient(s, name).Some? { RemovalSteady(s, HasIrcClient(s, name).value, None); }
    case Announce(r) => AnnounceSteady(db, s, r);
  }

  lemma EditedRemovalSteady(s: Lobby, r: Ref, c: Client)
    requires c.pending == At(s, r).pending && (Waiting(c) ==> Waiting(At(s, r)))
    ensures Steady(s, RemoveClient(Put(s, r, c), r), None)
  {
    PutSteady(s, r, c, None);
    RemovalSteady(Put(s, r, c), r, None);
    SteadyOn(s, Put(s, r, c), RemoveClient(Put(s, r, c), r), None);
  }

  lemma KickSteady(db: Db, s: Lobby, name: Text)
    ensures Steady(s, Step(db, s, Kick(name)), None)
  {
    LobbyScans.KickIs(db, s, name);
    var found := HasClient(s, name);
    if found.Some? { EditedRemovalSteady(s, found.value, At(s, found.value).(phase := Gone)); }
  }

  lemma AnnounceSteady(db: Db, s: Lobby, r: Ref)
    ensures Steady(s, Step(db, s, Announce(r)), None)
  {
    AnnounceIs(db, s, r);
    if At(s, r).timers > 0 {
      var t := Put(s, r, At(s, r).(timers := At(s, r).timers - 1));
      PutSteady(s, r, At(t, r), None);
      PutSteady(t, r, At(t, r).(announced := r in t.listed), None);
      SteadyOn(s, t, AnnounceNow(t, r), None);
    }
  }

  lemma {:induction false} PacketForgetsNobody(db: Db, s: Lobby, r: Ref, cmd: Command)
    requires GoodDb(db) && Inv(db, s, None, false) && Possible(s, Packet(r, cmd)) && NobodyForgotten(s)
    requires !DisplacesSomebody(s, Packet(r, cmd))
    ensures NobodyForgotten(Step(db, s, Packet(r, cmd)))
  {
    var t := Answer(db, s, r);
    LobbyProofs.SenderStays(db, s, r);
    AnswerForgetsNobody(db, s, r);
    assert Step(db, s, Packet(r, cmd)) == Handle(db, t, r, cmd);
    if IsAttempt(cmd) && s.conns[r].phase != Connected {
      ReadyToLogin(db, s, r);
      assert t == s;
      AttemptForgetsNobody(db, s, r, cmd);
    } else {
      OtherSteady(db, t, r, cmd);
      SteadyForgetsNobody(t, Handle(db, t, r, cmd));
    }
  }

  // ---------------------------------------------------------------- the exception

  // Whoever is displaced is awaited by nobody.
  lemma {:induction false} TheDisplacedIsForgotten(db: Db, s: Lobby, r: Ref, cmd: Command, prior: Ref)
    requires Inv(db, s, None, false) && Possible(s, Packet(r, cmd)) && s.conns[r].phase != Connected
    requires Displaces(s, r, cmd, prior)
    ensures !NobodyForgotten(Step(db, s, Packet(r, cmd)))
  {
    ReadyToLogin(db, s, r);
    var i: nat :| FirstOf(s, cmd.name, i) && s.listed[i] == prior;
    var t := HandleRelogin(db, s, r, cmd);
    ReloginGranted(db, s, r, cmd, i);
    assert Step(db, s, Packet(r, cmd)) == t;
    OneIsForgotten(db, s, t, r, prior);
  }

  lemma {:induction false} OneIsForgotten(db: Db, s: Lobby, t: Lobby, r: Ref, prior: Ref)
    requires Inv(db, s, None, false) && TakesIdentity(s, t, r, prior) && r < |s.conns| && s.conns[r].attempt == NotYet
    requires s.conns[r].pending == None && prior in s.listed && prior != r && At(s, prior).phase != Gone
    requires At(s, prior).pending.Some? && Waiting(At(s, At(s, prior).pending.value))
    ensures !NobodyForgotten(t)
  {
    var p := s.conns[prior].pending.value;
    assert Accounted(s, None, prior);
    assert Link(s, None, prior, p) && Waits(db, s, prior, p, false);
    assert p != r && p != prior;
    assert t.conns[p] == At(t, p) == s.conns[p];
    OneAwaits(db, s, prior, p);
    forall x | 0 <= x < |t.conns| ensures t.conns[x].pending != Some(p) {
      assert t.conns[x] == At(t, x);
    }
    assert !Awaited(t, p);
  }

  lemma OneAwaits(db: Db, s: Lobby, prior: Ref, p: Ref)
    requires LinksOk(db, s, None, false) && Link(s, None, prior, p)
    ensures forall x :: 0 <= x < |s.conns| && s.conns[x].pending == Some(p) ==> x == prior
  {
    forall x | 0 <= x < |s.conns| && s.conns[x].pending == Some(p) ensures x == prior {
      assert Link(s, None, x, p);
    }
  }

  // ---------------------------------------------------------------- theorems

  // From a state a possible run reaches, in which nobody waits in vain, a possible step leads to another one
  // exactly if it is no RELOGIN that displaces somebody.
  lemma {:induction false} StepForgetsNobodyIff(db: Db, es: seq<Event>, e: Event)
    requires GoodDb(db) && PossibleRun(db, es) && Possible(Run(db, es), e) && NobodyForgotten(Run(db, es))
    ensures NobodyForgotten(Step(db, Run(db, es), e)) <==> !DisplacesSomebody(Run(db, es), e)
  {
    var s := Run(db, es);
    PossibleRunKeeps(db, es);
    if DisplacesSomebody(s, e) {
      var prior :| Displaces(s, e.r, e.cmd, prior);
      TheDisplacedIsForgotten(db, s, e.r, e.cmd, prior);
    } else if e.Packet? {
      PacketForgetsNobody(db, s, e.r, e.cmd);
    } else {
      EventForgetsNobody(db, s, e);
    }
  }

  // In no state of the run anybody waits in vain.
  ghost predicate NeverInVain(db: Db, es: seq<Event>) {
    NobodyForgotten(Run(db, es)) && (es == [] || NeverInVain(db, es[..|es| - 1]))
  }

  // No RELOGIN of the run displaces somebody.
  ghost predicate Undisplaced(db: Db, es: seq<Event>) {
    es == [] || (Undisplaced(db, es[..|es| - 1]) && !DisplacesSomebody(Run(db, es[..|es| - 1]), es[|es| - 1]))
  }

  // In a possible run nobody ever waits in vain exactly if no RELOGIN in it displaces somebody.
  lemma {:induction false} NobodyWaitsInVainIff(db: Db, es: seq<Event>)
    requires GoodDb(db) && PossibleRun(db, es)
    ensures NeverInVain(db, es) <==> Undisplaced(db, es)
  {
    if es != [] {
      NobodyWaitsInVainIff(db, es[..|es| - 1]);
      if NeverInVain(db, es[..|es| - 1]) { StepForgetsNobodyIff(db, es[..|es| - 1], es[|es| - 1]); }
    }
  }

  // ---------------------------------------------------------------- a run in which somebody waits in vain

  const ANN_AGAIN :=
    NEW_CLIENT.(version := BUILD20, name := LobbyTheorems.ANN, nonce := LobbyTheorems.HERS, attempt := ByRelogin)

  function ReloginAsAnn(): Command {
    Relogin(BUILD20, LobbyTheorems.ANN, [], false, Some(LobbyTheorems.HERS), false)
  }

  // Ann logs in, and two connections after that claim to be her.
  function TwoReloginsRun(): seq<Event> {
    [Connect, Packet(0, LobbyTheorems.GuestLogin(LobbyTheorems.ANN, LobbyTheorems.HERS)),
     Connect, Packet(1, ReloginAsAnn()), Connect, Packet(2, ReloginAsAnn())]
  }

  // Ann, for whose answer q waits.
  function AnnAnd(q: Option<Ref>): Client {
    LobbyTheorems.ANN_IN.(pending := q)
  }

  lemma AnnIsAsked(s: Lobby, r: Ref, q: Option<Ref>)
    requires s.listed == [0] && 0 < r < |s.conns| && s.conns[0] == AnnAnd(q) && s.conns[r] == NEW_CLIENT
    ensures
      LobbyTheorems.Takes(s, Packet(r, ReloginAsAnn()), s.(conns := s.conns[r := ANN_AGAIN][0 := AnnAnd(Some(r))]))
  {
    assert HasClient(s, LobbyTheorems.ANN) == Some(0);
  }

  lemma {:induction false} SecondReloginDisplaces()
    ensures
      var db, es := LobbyTheorems.NOBODY_REGISTERED, TwoReloginsRun();
      && GoodDb(db) && ValidRun(db, es[..5]) && NobodyForgotten(Run(db, es[..5])) && Possible(Run(db, es[..5]), es[5])
      && !NobodyForgotten(Step(db, Run(db, es[..5]), es[5]))
  {
    var db, es := LobbyTheorems.NOBODY_REGISTERED, TwoReloginsRun();
    NoncesDiffer();
    LobbyLate.AnnThere(es);
    AnnIsClaimed(es);
    LobbyLate.ValidIsPossible(db, es[..5]);
    ClaimedTwice();
    StepForgetsNobodyIff(db, es[..5], es[5]);
  }

  lemma ClaimedTwice()
    ensures
      var s, e := ClaimedOnce(), Packet(2, ReloginAsAnn());
      NobodyForgotten(s) && Possible(s, e) && DisplacesSomebody(s, e)
  {
    var s := ClaimedOnce();
    assert s.conns[0].pending == Some(1);
    AnnIsAsked(s, 2, Some(1));
    assert FirstOf(s, LobbyTheorems.ANN, 0);
    assert Displaces(s, 2, ReloginAsAnn(), 0);
  }

  function ClaimedOnce(): Lobby {
    LobbyTheorems.Plain([AnnAnd(Some(1)), ANN_AGAIN, NEW_CLIENT], [0])
  }

  lemma {:induction false} AnnIsClaimed(es: seq<Event>)
    requires |es| >= 5 && es[2] == Connect && es[3] == Packet(1, ReloginAsAnn()) && es[4] == Connect
    requires LobbyTheorems.Reaches(LobbyTheorems.NOBODY_REGISTERED, es, 2,
      LobbyTheorems.Plain([LobbyTheorems.ANN_IN], [0]))
    ensures LobbyTheorems.Reaches(LobbyTheorems.NOBODY_REGISTERED, es, 5, ClaimedOnce())
  {
    var s, t := LobbyTheorems.Plain([LobbyTheorems.ANN_IN], [0]), AnnAndSomebody();
    LobbyTheorems.SomebodyConnects(s, t);
    AnnClaims();
    var u := LobbyTheorems.Plain([AnnAnd(Some(1)), ANN_AGAIN], [0]);
    LobbyTheorems.SomebodyConnects(u, ClaimedOnce());
    ClaimedIn(es, s, t, u, ClaimedOnce());
  }

  function AnnAndSomebody(): Lobby {
    LobbyTheorems.Plain([LobbyTheorems.ANN_IN, NEW_CLIENT], [0])
  }

  lemma AnnClaims()
    ensures
      LobbyTheorems.Takes(AnnAndSomebody(), Packet(1, ReloginAsAnn()),
        LobbyTheorems.Plain([AnnAnd(Some(1)), ANN_AGAIN], [0]))
  {
    var t := AnnAndSomebody();
    assert LobbyTheorems.ANN_IN == AnnAnd(None);
    AnnIsAsked(t, 1, None);
    assert t.conns[1 := ANN_AGAIN][0 := AnnAnd(Some(1))] == [AnnAnd(Some(1)), ANN_AGAIN];
  }

  lemma {:induction false} ClaimedIn(es: seq<Event>, s: Lobby, t: Lobby, u: Lobby, v: Lobby)
    requires |es| >= 5 && LobbyTheorems.Reaches(LobbyTheorems.NOBODY_REGISTERED, es, 2, s)
    requires LobbyTheorems.Takes(s, es[2], t) && LobbyTheorems.Takes(t, es[3], u) && LobbyTheorems.Takes(u, es[4], v)
    ensures LobbyTheorems.Reaches(LobbyTheorems.NOBODY_REGISTERED, es, 5, v)
  {
    LobbyLate.ReachesTwo(es, 2, s, t, u);
    LobbyTheorems.ReachesNext(LobbyTheorems.NOBODY_REGISTERED, es, 4, u, v);
  }
}
