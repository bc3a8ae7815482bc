/** Who has rights has proved who it is (wlms/client.go, wlms/userdb.go): what every client was asked and what
    it answered is read off the run, not off the server's records. */
module LobbyProofs {
  import opened GoText
  import opened LobbyModel
  import opened LobbyInvariant
  import opened LobbySteps
  import LobbyScans
  import FreeName

  // ---------------------------------------------------------------- the history

  // The answer to a challenge: the digest of it and the user's password. Where there was none to be had, the
  // answer is empty.
  function Digest(db: Db, name: Text, challenge: Option<Text>): Text {
    if challenge.Some? && name in db.users then db.sha(challenge.value + db.users[name].password) else []
  }

  // As whom a client has last presented itself, which answer it owes, and whether it only wants its password
  // to be checked.
  datatype Asked = Asked(name: Text, answer: Text, checking: bool)

  function LastAsked(db: Db, es: seq<Event>, r: Ref): Asked {
    if es == [] then Asked([], [], false)
    else
      var before := LastAsked(db, es[..|es| - 1], r);
      match es[|es| - 1]
      case Packet(q, cmd) => if q == r then AskedBy(db, before, cmd) else before
      case _ => before
  }

  function AskedBy(db: Db, before: Asked, cmd: Command): Asked {
    match cmd
    case Login(version, name, _, registered, _, _, challenge) =>
      Asked(name, if registered && version >= 5 then Digest(db, name, challenge) else before.answer, before.checking)
    case CheckPassword(_, name, _, challenge) => Asked(name, Digest(db, name, challenge), true)
    case Password(response) => if response == before.answer then before.(checking := false) else before
    case _ => before
  }

  // With the j-th event r proves that it knows the password of that name: by the right answer to what it was
  // last asked under that name, or, with the protocol of build 19, by the password itself.
  ghost predicate ProvesAt(db: Db, es: seq<Event>, j: nat, r: Ref, name: Text) {
    j < |es| &&
    match es[j]
    case Packet(q, Password(response)) =>
      q == r && LastAsked(db, es[..j], r).name == name && response == LastAsked(db, es[..j], r).answer
    case Packet(q, Login(version, n, _, registered, nonce, _, _)) =>
      && q == r && n == name && registered && version == 0 && nonce.Some?
      && name in db.users && db.users[name].password == db.sha(nonce.value)
    case _ => false
  }

  ghost predicate Proved(db: Db, es: seq<Event>, r: Ref, name: Text) {
    exists j :: ProvesAt(db, es, j, r, name)
  }

  // ---------------------------------------------------------------- what most of a step leaves alone

  ghost predicate HasRights(c: Client) {
    (c.perm == Registered || c.perm == Superuser) && (c.joined || c.phase != Gone || c.attempt == ByRelogin)
  }

  // d, that was c, has no rights c did not have, and owes the answer c owed.
  ghost predicate NoGain(c: Client, d: Client) {
    && (d.attempt == NotYet && d.phase != Gone ==>
          c.attempt == NotYet && c.phase == d.phase && c.name == d.name && c.expected == d.expected)
    && (HasRights(d) ==> HasRights(c) && d.name == c.name && d.attempt == c.attempt)
  }

  ghost predicate NoGains(s: Lobby, t: Lobby) {
    |s.conns| == |t.conns| && forall x :: 0 <= x < |s.conns| ==> NoGain(s.conns[x], t.conns[x])
  }

  // Nobody but r gains anything.
  ghost predicate OnlyGains(s: Lobby, t: Lobby, r: Ref) {
    |s.conns| == |t.conns| && forall x :: 0 <= x < |s.conns| && x != r ==> NoGain(s.conns[x], t.conns[x])
  }

  lemma NoGainsOn(s: Lobby, t: Lobby, u: Lobby)
    requires NoGains(s, t) && NoGains(t, u)
    ensures NoGains(s, u)
  {
  }

  lemma PutGains(s: Lobby, r: Ref, c: Client)
    requires r < |s.conns| ==> NoGain(s.conns[r], c)
    ensures NoGains(s, Put(s, r, c))
  {
  }

  lemma RemoveGains(s: Lobby, r: Ref)
    ensures NoGains(s, RemoveClient(s, r))
  {
  }

  lemma LoginDoneGains(s: Lobby, c: Ref)
    requires c < |s.conns| && s.conns[c].attempt != NotYet
    ensures NoGains(s, LoginDone(s, c))
  {
  }

  // Rights do not go with another name.
  ghost predicate MayTake(s: Lobby, c: Ref, prior: Ref) {
    c < |s.conns| && s.conns[c].attempt == ByLogin && !s.conns[c].joined
    && (s.conns[c].perm == Unregistered || s.conns[c].name == At(s, prior).name)
  }

  lemma TakeOverGains(s: Lobby, c: Ref, prior: Ref)
    requires MayTake(s, c, prior)
    ensures NoGains(s, TakeOver(s, c, prior))
  {
    var u := Put(s, c, At(s, c).(name := At(s, prior).name, game := At(s, prior).game));
    PutGains(s, c, At(u, c));
    RemoveGains(u, prior);
    NoGainsOn(s, u, TakeName(s, c, prior));
    LoginDoneGains(TakeName(s, c, prior), c);
    NoGainsOn(s, TakeName(s, c, prior), TakeOver(s, c, prior));
  }

  lemma FindUnconnectedGains(db: Db, s: Lobby, c: Ref)
    requires c < |s.conns| && s.conns[c].attempt == ByLogin && !s.conns[c].joined
    ensures NoGains(s, FindUnconnectedName(db, s, c))
  {
    var me, k := s.conns[c], FreeIndex(db, s, c);
    var name := FreeName.Numbered(me.name, if k > FreeName.TRIES then FreeName.TRIES else k);
    var t := Put(s, c, me.(name := name));
    LobbyScans.SearchEnds(db, s, t, c, k);
    var d :=
      if k > FreeName.TRIES then t.conns[c].(phase := Gone)
      else t.conns[c].(nonce := LobbyScans.NonceFor(db, t.conns[c], me.name), perm := Unregistered);
    LobbyScans.PutAgain(s, c);
    PutGains(s, c, d);
    LoginDoneGains(Put(s, c, d), c);
    NoGainsOn(s, Put(s, c, d), LoginDone(Put(s, c, d), c));
  }

  lemma {:induction false} CheckGains(db: Db, s: Lobby, c: Ref)
    requires c < |s.conns| && s.conns[c].attempt == ByLogin && !s.conns[c].joined
    ensures NoGains(s, CheckCandidates(db, s, c))
    decreases |CandidatesOf(At(s, c))|
  {
    var me, cs := s.conns[c], CandidatesOf(s.conns[c]);
    if me.phase == Handshake && cs == [] {
      FindUnconnectedGains(db, s, c);
    } else if me.phase == Handshake {
      var t := Put(s, c, Downgrade(db, me, At(s, cs[0]).name).(candidates := Some(cs[1..])));
      PutGains(s, c, t.conns[c]);
      if At(t, cs[0]).pending.Some? { CheckGains(db, t, c); } else { NextGains(t, c, cs[0]); }
      NoGainsOn(s, t, CheckCandidates(db, s, c));
    }
  }

  // c takes the place of prior, or waits for it.
  lemma NextGains(t: Lobby, c: Ref, prior: Ref)
    requires MayTake(t, c, prior)
    ensures NoGains(t, TakeOver(t, c, prior)) && NoGains(t, Probe(t, c, prior))
  {
    TakeOverGains(t, c, prior);
    ProbeGains(t, c, prior);
  }

  lemma ProbeGains(t: Lobby, c: Ref, prior: Ref)
    ensures NoGains(t, Probe(t, c, prior))
  {
    var u := Put(t, c, At(t, c).(probes := At(t, c).probes + 1));
    PutGains(t, c, At(u, c));
    PutGains(u, prior, At(u, prior).(pending := Some(c)));
    NoGainsOn(t, u, Probe(t, c, prior));
  }

  lemma {:induction false} FindReplaceGains(db: Db, s: Lobby, c: Ref, registered: bool)
    requires c < |s.conns| && s.conns[c].attempt == ByLogin && !s.conns[c].joined
    ensures NoGains(s, FindReplaceCandidates(db, s, c, registered))
  {
    var cs := FindClientsToReplace(s, s.conns[c].nonce, s.conns[c].name);
    var t := Put(s, c, s.conns[c].(candidates := Some(cs), quota := |cs|, probes := 0));
    PutGains(s, c, t.conns[c]);
    CheckGains(db, t, c);
    LoginDoneGains(t, c);
    FindUnconnectedGains(db, t, c);
    NoGainsOn(s, t, FindReplaceCandidates(db, s, c, registered));
  }

  lemma ReloginGains(s: Lobby, c: Ref, prior: Ref)
    requires c < |s.conns| && s.conns[c].attempt == ByRelogin
    ensures NoGains(s, SuccessfulRelogin(s, c, prior))
  {
    RemoveGains(s, prior);
  }

  lemma {:induction false} AnswerGains(db: Db, s: Lobby, x: Ref)
    requires Inv(db, s, None, false) && x < |s.conns| && Live(s, x)
    ensures NoGains(s, Answer(db, s, x))
  {
    if s.conns[x].pending.Some? {
      var p := s.conns[x].pending.value;
      assert Accounted(s, None, x);
      assert Link(s, None, x, p);
      assert Waits(db, s, x, p, false);
      if s.conns[p].candidates.Some? { CheckGains(db, s, p); }
      var t := if s.conns[p].candidates == None then Disconnect(s, p) else CheckCandidates(db, s, p);
      PutGains(t, x, At(t, x).(pending := None));
      NoGainsOn(s, t, Answer(db, s, x));
    }
  }

  lemma {:induction false} FailedPongGains(db: Db, s: Lobby, x: Ref)
    requires Inv(db, s, None, false) && x < |s.conns|
    requires s.conns[x].pending.Some? ==> Link(s, None, x, s.conns[x].pending.value)
    ensures NoGains(s, FailedPong(s, x))
  {
    var t := Disconnect(s, x);
    PutGains(s, x, t.conns[x]);
    if s.conns[x].pending.Some? {
      var p := s.conns[x].pending.value;
      assert Waits(db, s, x, p, false);
      WaiterGains(s, x, p);
      NoGainsOn(s, t, FailedPong(s, x));
    }
  }

  lemma WaiterGains(s: Lobby, x: Ref, p: Ref)
    requires x < |s.conns| && p < |s.conns| && x != p && !s.conns[p].joined && s.conns[p].attempt != NotYet
    requires s.conns[p].candidates.Some? <==> s.conns[p].attempt == ByLogin
    requires s.conns[p].candidates.Some? ==> s.conns[p].perm == Unregistered || s.conns[p].name == s.conns[x].name
    ensures
      var t := Disconnect(s, x);
      NoGains(t, if At(t, p).candidates == None then SuccessfulRelogin(t, p, x) else TakeOver(t, p, x))
  {
    var t := Disconnect(s, x);
    if t.conns[p].candidates == None { ReloginGains(t, p, x); } else { TakeOverGains(t, p, x); }
  }

  // ---------------------------------------------------------------- what is known of everybody

  // Whoever has not made its attempt yet is as it has presented itself, and owes what it was asked.
  ghost predicate AsksOk(db: Db, es: seq<Event>, r: Ref, c: Client) {
    c.attempt == NotYet && c.phase != Gone ==>
      var a := LastAsked(db, es, r);
      && c.name == a.name && c.expected == a.answer
      && (c.phase == CheckPwd <==> a.checking) && (c.phase == Handshake || c.phase == CheckPwd)
  }

  // Whoever has rights has proved to be who it is, or has entered by a RELOGIN in place of somebody whose
  // rights go back to such a proof.
  ghost predicate RightsOk(db: Db, es: seq<Event>, r: Ref, c: Client) {
    HasRights(c) ==>
      && (c.attempt == ByLogin ==> Proved(db, es, r, c.name))
      && (exists q :: Proved(db, es, q, c.name))
  }

  ghost predicate KnownOk(db: Db, es: seq<Event>, s: Lobby) {
    forall r :: 0 <= r < |s.conns| ==> AsksOk(db, es, r, s.conns[r]) && RightsOk(db, es, r, s.conns[r])
  }

  lemma {:induction false} ProvedLater(db: Db, es: seq<Event>, e: Event, r: Ref, name: Text)
    requires Proved(db, es, r, name)
    ensures Proved(db, es + [e], r, name)
  {
    var j: nat :| ProvesAt(db, es, j, r, name);
    assert (es + [e])[..j] == es[..j];
    assert ProvesAt(db, es + [e], j, r, name);
  }

  lemma {:induction false} RightsStay(db: Db, es: seq<Event>, e: Event, r: Ref, c: Client, d: Client)
    requires RightsOk(db, es, r, c) && NoGain(c, d)
    ensures RightsOk(db, es + [e], r, d)
  {
    if HasRights(d) {
      if d.attempt == ByLogin { ProvedLater(db, es, e, r, d.name); }
      var q :| Proved(db, es, q, d.name);
      ProvedLater(db, es, e, q, d.name);
    }
  }

  // An event that is no packet of r's asks r nothing.
  lemma {:induction false} AskedStays(db: Db, es: seq<Event>, e: Event, r: Ref)
    requires e.Packet? ==> e.r != r
    ensures LastAsked(db, es + [e], r) == LastAsked(db, es, r)
  {
    assert (es + [e])[..|es|] == es;
  }

  lemma {:induction false} AskedNow(db: Db, es: seq<Event>, r: Ref, cmd: Command)
    ensures LastAsked(db, es + [Packet(r, cmd)], r) == AskedBy(db, LastAsked(db, es, r), cmd)
  {
    assert (es + [Packet(r, cmd)])[..|es|] == es;
  }

  lemma {:induction false} KnownStays(db: Db, es: seq<Event>, e: Event, s: Lobby, t: Lobby, r: Ref)
    requires KnownOk(db, es, s) && r < |s.conns| && r < |t.conns| && NoGain(s.conns[r], t.conns[r])
    requires LastAsked(db, es + [e], r) == LastAsked(db, es, r)
    ensures AsksOk(db, es + [e], r, t.conns[r]) && RightsOk(db, es + [e], r, t.conns[r])
  {
    RightsStay(db, es, e, r, s.conns[r], t.conns[r]);
  }

  // ---------------------------------------------------------------- what attempts bring

  // c after the attempt cmd by a client that has presented itself as a.
  ghost predicate Brought(db: Db, es: seq<Event>, s: Lobby, t: Lobby, r: Ref, cmd: Command) {
    && OnlyGains(s, t, r) && r < |t.conns|
    && AsksOk(db, es + [Packet(r, cmd)], r, t.conns[r]) && RightsOk(db, es + [Packet(r, cmd)], r, t.conns[r])
  }

  // r goes on with its login as c.
  lemma {:induction false} FindReplaceBrings(
    db: Db, es: seq<Event>, s: Lobby, r: Ref, cmd: Command, c: Client, registered: bool)
    requires r < |s.conns| && c.attempt == ByLogin && !c.joined
    requires c.perm == Unregistered || Proved(db, es + [Packet(r, cmd)], r, c.name)
    ensures Brought(db, es, s, FindReplaceCandidates(db, Put(s, r, c), r, registered), r, cmd)
  {
    FindReplaceGains(db, Put(s, r, c), r, registered);
  }

  // r is refused, or waits to be asked again.
  lemma StaysUnregistered(db: Db, es: seq<Event>, s: Lobby, r: Ref, cmd: Command, c: Client)
    requires r < |s.conns| && c.perm == Unregistered
    requires c.attempt == NotYet && c.phase != Gone ==> AsksOk(db, es + [Packet(r, cmd)], r, c)
    ensures Brought(db, es, s, Put(s, r, c), r, cmd)
  {
  }

  lemma {:induction false} LoginBrings(db: Db, es: seq<Event>, s: Lobby, r: Ref, cmd: Command)
    requires GoodDb(db) && KnownOk(db, es, s) && r < |s.conns| && cmd.Login?
    requires RecordOk(db, s.conns[r]) && s.conns[r].attempt == NotYet && s.conns[r].phase != Gone
    ensures Brought(db, es, s, HandleLogin(db, s, r, cmd), r, cmd)
  {
    var t := HandleLogin(db, s, r, cmd);
    var me := s.conns[r].(version := cmd.version, name := cmd.name, build := cmd.build, attempt := ByLogin);
    var hasNonce := cmd.registered || cmd.version >= BUILD20;
    AskedNow(db, es, r, cmd);
    if !Supported(cmd.version) || (hasNonce && cmd.nonce == None) {
      StaysUnregistered(db, es, s, r, cmd, me.(phase := Gone));
    } else {
      var me' := if hasNonce then me.(nonce := cmd.nonce.value) else me;
      if cmd.banned || (cmd.registered && cmd.name !in db.users) {
        StaysUnregistered(db, es, s, r, cmd, me'.(phase := Gone));
      } else if cmd.registered && cmd.version >= BUILD20 {
        StaysUnregistered(db, es, s, r, cmd, At(t, r));
      } else if cmd.registered && !PasswordCorrect(db, cmd.name, me'.nonce) {
        StaysUnregistered(db, es, s, r, cmd, me'.(phase := Gone));
      } else if cmd.registered {
        assert (es + [Packet(r, cmd)])[|es|] == Packet(r, cmd);
        assert ProvesAt(db, es + [Packet(r, cmd)], |es|, r, cmd.name);
        FindReplaceBrings(db, es, s, r, cmd, me'.(perm := Permissions(db, cmd.name)), true);
      } else {
        FindReplaceBrings(db, es, s, r, cmd, me', false);
      }
    }
  }

  lemma {:induction false} PasswordBrings(db: Db, es: seq<Event>, s: Lobby, r: Ref, response: Text)
    requires GoodDb(db) && KnownOk(db, es, s) && r < |s.conns|
    requires RecordOk(db, s.conns[r]) && s.conns[r].attempt == NotYet && s.conns[r].phase != Gone
    ensures Brought(db, es, s, HandlePassword(db, s, r, response), r, Password(response))
  {
    var me, cmd := s.conns[r], Password(response);
    AskedNow(db, es, r, cmd);
    assert AsksOk(db, es, r, me);
    if me.expected != response {
      StaysUnregistered(db, es, s, r, cmd, me.(phase := Gone));
    } else if me.phase == Handshake {
      assert (es + [Packet(r, cmd)])[..|es|] == es;
      assert ProvesAt(db, es + [Packet(r, cmd)], |es|, r, me.name);
      var nonce := DowngradedNonce(db, me.name, me.name);
      var c := me.(perm := Permissions(db, me.name), nonce := nonce, attempt := ByLogin);
      FindReplaceBrings(db, es, s, r, cmd, c, true);
    } else {
      StaysUnregistered(db, es, s, r, cmd, me.(phase := Handshake, attempt := NotYet));
    }
  }

  lemma {:induction false} CheckPasswordBrings(db: Db, es: seq<Event>, s: Lobby, r: Ref, cmd: Command)
    requires KnownOk(db, es, s) && r < |s.conns| && (cmd.CheckPassword? || cmd.Malformed?)
    requires RecordOk(db, s.conns[r]) && s.conns[r].attempt == NotYet && s.conns[r].phase != Gone
    ensures Brought(db, es, s, Handle(db, s, r, cmd), r, cmd)
  {
    AskedNow(db, es, r, cmd);
    StaysUnregistered(db, es, s, r, cmd, At(Handle(db, s, r, cmd), r));
  }

  // Somebody takes the identity, and with it the rights, of a listed player.
  lemma {:induction false} ImpersonationBrings(
    db: Db, es: seq<Event>, s: Lobby, r: Ref, cmd: Command, prior: Ref, c: Client)
    requires KnownOk(db, es, s) && r < |s.conns| && prior < |s.conns| && s.conns[prior].joined
    requires c.attempt == ByRelogin && c.name == s.conns[prior].name && c.perm == s.conns[prior].perm
    ensures Brought(db, es, s, Put(s, r, c), r, cmd)
  {
    if HasRights(c) {
      assert RightsOk(db, es, prior, s.conns[prior]);
      var q :| Proved(db, es, q, c.name);
      ProvedLater(db, es, Packet(r, cmd), q, c.name);
    }
  }

  lemma {:induction false} ReloginBrings(db: Db, es: seq<Event>, s: Lobby, r: Ref, cmd: Command)
    requires Inv(db, s, None, false) && KnownOk(db, es, s) && r < |s.conns| && cmd.Relogin?
    requires s.conns[r].attempt == NotYet && s.conns[r].phase != Gone
    ensures Brought(db, es, s, HandleRelogin(db, s, r, cmd), r, cmd)
  {
    assert RecordOk(db, s.conns[r]);
    LookupIs(s, s.listed, cmd.name, false);
    var found := HasClient(s, cmd.name);
    var t := HandleRelogin(db, s, r, cmd);
    StaysUnregistered(db, es, s, r, cmd, s.conns[r].(phase := Gone));
    if found.Some? && t != Disconnect(s, r) {
      var prior, him := found.value, At(s, found.value);
      var c := s.conns[r].(version := him.version, perm := him.perm, name := him.name, build := him.build,
                           game := him.game, nonce := him.nonce, attempt := ByRelogin);
      ImpersonationBrings(db, es, s, r, cmd, prior, c);
      var u := Put(s, r, c);
      ReloginGains(u, r, prior);
      PutGains(u, prior, At(u, prior).(pending := Some(r)));
      GainsAfter(db, es, s, u, t, r, cmd);
    }
  }

  lemma {:induction false} GainsAfter(db: Db, es: seq<Event>, s: Lobby, u: Lobby, t: Lobby, r: Ref, cmd: Command)
    requires r < |s.conns| && Brought(db, es, s, u, r, cmd) && NoGains(u, t)
    ensures Brought(db, es, s, t, r, cmd)
  {
  }

  // ---------------------------------------------------------------- every step

  lemma {:induction false} HandleBrings(db: Db, es: seq<Event>, s: Lobby, r: Ref, cmd: Command)
    requires GoodDb(db) && Inv(db, s, None, false) && KnownOk(db, es, s) && r < |s.conns| && IsAttempt(cmd)
    requires s.conns[r].phase != Gone && s.conns[r].perm != Irc && Orderly(s.conns[r], cmd)
    ensures Brought(db, es, s, Handle(db, s, r, cmd), r, cmd)
  {
    assert RecordOk(db, s.conns[r]);
    if s.conns[r].phase == Connected {
      ConnectedIsRefused(db, s, r, cmd);
      RightsStay(db, es, Packet(r, cmd), r, s.conns[r], s.conns[r].(phase := Gone));
    } else {
      match cmd
      case Login(_, _, _, _, _, _, _) => LoginBrings(db, es, s, r, cmd);
      case Password(response) => PasswordBrings(db, es, s, r, response);
      case Relogin(_, _, _, _, _, _) => ReloginBrings(db, es, s, r, cmd);
      case _ => CheckPasswordBrings(db, es, s, r, cmd);
    }
  }

  // What is not about logging in brings nobody anything.
  lemma {:induction false} OtherGains(db: Db, s: Lobby, r: Ref, cmd: Command)
    requires r < |s.conns| && !IsAttempt(cmd)
    ensures NoGains(s, Handle(db, s, r, cmd))
  {
    if cmd.Leave? {
      var t := Disconnect(Put(s, r, At(s, r).(game := None)), r);
      RemoveGains(t, r);
      NoGainsOn(s, t, RemoveClient(t, r));
    }
  }

  lemma {:induction false} BroughtIsKnown(db: Db, es: seq<Event>, s: Lobby, t: Lobby, r: Ref, cmd: Command)
    requires KnownOk(db, es, s) && Brought(db, es, s, t, r, cmd)
    ensures KnownOk(db, es + [Packet(r, cmd)], t)
  {
    var e := Packet(r, cmd);
    forall x | 0 <= x < |t.conns|
      ensures AsksOk(db, es + [e], x, t.conns[x]) && RightsOk(db, es + [e], x, t.conns[x])
    {
      if x != r {
        AskedStays(db, es, e, x);
        KnownStays(db, es, e, s, t, x);
      }
    }
  }

  lemma {:induction false} GainlessIsKnown(db: Db, es: seq<Event>, e: Event, s: Lobby, t: Lobby)
    requires KnownOk(db, es, s) && NoGains(s, t)
    requires forall r :: 0 <= r < |s.conns| ==> LastAsked(db, es + [e], r) == LastAsked(db, es, r)
    ensures KnownOk(db, es + [e], t)
  {
    forall x | 0 <= x < |t.conns|
      ensures AsksOk(db, es + [e], x, t.conns[x]) && RightsOk(db, es + [e], x, t.conns[x])
    {
      KnownStays(db, es, e, s, t, x);
    }
  }

  // Serving whoever waits for the sender changes nothing that is known.
  lemma {:induction false} ServedIsKnown(db: Db, es: seq<Event>, s: Lobby, t: Lobby)
    requires KnownOk(db, es, s) && NoGains(s, t)
    ensures KnownOk(db, es, t)
  {
    forall x | 0 <= x < |t.conns| ensures AsksOk(db, es, x, t.conns[x]) && RightsOk(db, es, x, t.conns[x]) {
      assert NoGain(s.conns[x], t.conns[x]) && AsksOk(db, es, x, s.conns[x]) && RightsOk(db, es, x, s.conns[x]);
    }
  }

  lemma {:induction false} PacketIsKnown(db: Db, es: seq<Event>, s: Lobby, r: Ref, cmd: Command)
    requires GoodDb(db) && Inv(db, s, None, false) && KnownOk(db, es, s) && Possible(s, Packet(r, cmd))
    ensures KnownOk(db, es + [Packet(r, cmd)], Step(db, s, Packet(r, cmd)))
    ensures |Step(db, s, Packet(r, cmd)).conns| == |s.conns|
  {
    var t := Answer(db, s, r);
    AnswerGains(db, s, r);
    ServedIsKnown(db, es, s, t);
    SenderStays(db, s, r);
    assert Step(db, s, Packet(r, cmd)) == Handle(db, t, r, cmd);
    if IsAttempt(cmd) {
      HandleBrings(db, es, t, r, cmd);
      BroughtIsKnown(db, es, t, Handle(db, t, r, cmd), r, cmd);
    } else {
      OtherGains(db, t, r, cmd);
      forall x | 0 <= x < |t.conns| ensures LastAsked(db, es + [Packet(r, cmd)], x) == LastAsked(db, es, x) {
        if x == r { AskedNow(db, es, r, cmd); } else { AskedStays(db, es, Packet(r, cmd), x); }
      }
      GainlessIsKnown(db, es, Packet(r, cmd), t, Handle(db, t, r, cmd));
    }
  }

  // The sender of a packet is as it was when whoever waits for it has been served.
  lemma {:induction false} SenderStays(db: Db, s: Lobby, r: Ref)
    requires GoodDb(db) && Inv(db, s, None, false)
    requires r < |s.conns| && s.conns[r].phase != Gone && s.conns[r].perm != Irc
    ensures
      var t := Answer(db, s, r);
      && Inv(db, t, None, false) && |t.conns| == |s.conns|
      && t.conns[r].phase == s.conns[r].phase && t.conns[r].perm == s.conns[r].perm
      && t.conns[r].attempt == s.conns[r].attempt
  {
    AnswerKeeps(db, s, r, false);
  }

  // Somebody new is known to nobody.
  lemma {:induction false} NewcomerIsKnown(db: Db, es: seq<Event>, e: Event, s: Lobby, t: Lobby)
    requires KnownOk(db, es, s) && !e.Packet? && |t.conns| == |s.conns| + 1
    requires forall r :: 0 <= r < |s.conns| ==> NoGain(s.conns[r], t.conns[r])
    requires t.conns[|s.conns|] == NEW_CLIENT || t.conns[|s.conns|].perm == Irc
    requires t.conns[|s.conns|].perm == Irc ==> t.conns[|s.conns|].attempt == ByLogin
    requires LastAsked(db, es, |s.conns|) == Asked([], [], false)
    ensures KnownOk(db, es + [e], t)
  {
    forall x | 0 <= x < |t.conns|
      ensures AsksOk(db, es + [e], x, t.conns[x]) && RightsOk(db, es + [e], x, t.conns[x])
    {
      AskedStays(db, es, e, x);
      if x < |s.conns| { KnownStays(db, es, e, s, t, x); }
    }
  }

  // Kicks, timers and the like.
  lemma {:induction false} EventGains(db: Db, s: Lobby, e: Event)
    requires Inv(db, s, None, false) && Possible(s, e) && !e.Packet? && !e.Connect? && !e.IrcJoin?
    ensures NoGains(s, Step(db, s, e))
  {
    match e
    case StreamEnded(r) => if s.conns[r].phase != Gone { SilenceGains(db, s, r); }
    case PingUnanswered(r) => SilenceGains(db, s, r);
    case Timeout(r) =>
    case Forget(r) => ForgetGains(s, r);
    case Kick(name) => if HasClient(s, name).Some? { KickGains(s, HasClient(s, name).value); }
    case IrcLeave(name) => if HasIrcClient(s, name).Some? { RemoveGains(s, HasIrcClient(s, name).value); }
    case Announce(r) => AnnouncementGains(db, s, r);
  }

  lemma AnnouncementGains(db: Db, s: Lobby, r: Ref)
    ensures NoGains(s, Step(db, s, Announce(r)))
  {
    AnnounceIs(db, s, r);
    if At(s, r).timers > 0 {
      var t := Put(s, r, At(s, r).(timers := At(s, r).timers - 1));
      PutGains(s, r, At(t, r));
      PutGains(t, r, At(t, r).(announced := r in t.listed));
      NoGainsOn(s, t, AnnounceNow(t, r));
    }
  }

  lemma ForgetGains(s: Lobby, r: Ref)
    ensures NoGains(s, RemoveClient(Put(s, r, At(s, r).(game := None)), r))
  {
    RemovalGains(s, r, At(s, r).(game := None));
  }

  lemma KickGains(s: Lobby, x: Ref)
    ensures NoGains(s, RemoveClient(Disconnect(s, x), x))
  {
    RemovalGains(s, x, At(s, x).(phase := Gone));
  }

  lemma SilenceGains(db: Db, s: Lobby, r: Ref)
    requires Inv(db, s, None, false) && r < |s.conns|
    requires s.conns[r].phase != Gone || (s.conns[r].pending.Some? ==> !At(s, s.conns[r].pending.value).joined)
    ensures NoGains(s, FailedPong(s, r))
  {
    assert Accounted(s, None, r);
    FailedPongGains(db, s, r);
  }

  lemma RemovalGains(s: Lobby, r: Ref, c: Client)
    requires NoGain(At(s, r), c)
    ensures NoGains(s, RemoveClient(Put(s, r, c), r))
  {
    PutGains(s, r, c);
    RemoveGains(Put(s, r, c), r);
    NoGainsOn(s, Put(s, r, c), RemoveClient(Put(s, r, c), r));
  }

  // Who has not connected yet has not said anything.
  ghost predicate Silent(db: Db, es: seq<Event>, n: nat) {
    forall r: Ref :: n <= r ==> LastAsked(db, es, r) == Asked([], [], false)
  }

  lemma {:induction false} StepIsKnown(db: Db, es: seq<Event>, s: Lobby, e: Event)
    requires GoodDb(db) && Inv(db, s, None, false) && Possible(s, e)
    requires KnownOk(db, es, s) && Silent(db, es, |s.conns|)
    ensures KnownOk(db, es + [e], Step(db, s, e)) && Silent(db, es + [e], |Step(db, s, e).conns|)
  {
    var t := Step(db, s, e);
    if e.Packet? {
      PacketIsKnown(db, es, s, e.r, e.cmd);
      forall r: Ref | |t.conns| <= r ensures LastAsked(db, es + [e], r) == Asked([], [], false) {
        AskedStays(db, es, e, r);
      }
    } else {
      forall r: Ref ensures LastAsked(db, es + [e], r) == LastAsked(db, es, r) { AskedStays(db, es, e, r); }
      if e.Connect? || (e.IrcJoin? && |t.conns| > |s.conns|) {
        NewcomerIsKnown(db, es, e, s, t);
      } else {
        if !e.IrcJoin? { EventGains(db, s, e); }
        GainlessIsKnown(db, es, e, s, t);
      }
    }
  }

  lemma {:induction false} RunIsKnown(db: Db, es: seq<Event>)
    requires GoodDb(db) && PossibleRun(db, es)
    ensures KnownOk(db, es, Run(db, es)) && Silent(db, es, |Run(db, es).conns|)
  {
    if es != [] {
      var before, e := es[..|es| - 1], es[|es| - 1];
      RunIsKnown(db, before);
      PossibleRunKeeps(db, before);
      assert es == before + [e];
      StepIsKnown(db, before, Run(db, before), e);
    }
  }

  // ---------------------------------------------------------------- theorems

  // In every possible run, whoever is listed with the rights of a registered user or an administrator and has
  // come by LOGIN has proved to know the password of the name it bears. Whoever has come by RELOGIN bears a
  // name for which somebody has.
  lemma {:induction false} RightsAreProved(db: Db, es: seq<Event>, x: Ref)
    requires GoodDb(db) && PossibleRun(db, es) && x in Run(db, es).listed
    ensures
      var c := At(Run(db, es), x);
      c.perm == Registered || c.perm == Superuser ==>
        && c.attempt != NotYet
        && (c.attempt == ByLogin ==> Proved(db, es, x, c.name))
        && (exists q :: Proved(db, es, q, c.name))
  {
    RunIsKnown(db, es);
    PossibleRunKeeps(db, es);
    var s := Run(db, es);
    assert s.conns[x].joined && RecordOk(db, s.conns[x]) && RightsOk(db, es, x, s.conns[x]);
  }

  // t is s, but r has been given another record.
  ghost predicate OnlyBecomes(s: Lobby, t: Lobby, r: Ref, c: Client) {
    t.listed == s.listed && At(t, r) == c && forall y :: y != r ==> At(t, y) == At(s, y)
  }

  // In every possible run, a client that has not logged in and answers a challenge goes on only if the answer
  // is right. A wrong one ends the connection; a right one that was only to be checked lets it try to log in;
  // in both cases nobody's name, rights or place in the list changes.
  lemma {:induction false} AnswersAreChecked(db: Db, es: seq<Event>, r: Ref, response: Text)
    requires
      var s := Run(db, es);
      && GoodDb(db) && PossibleRun(db, es) && Possible(s, Packet(r, Password(response)))
      && s.conns[r].phase != Connected
    ensures
      var s, t := Run(db, es), Step(db, Run(db, es), Packet(r, Password(response)));
      var a := LastAsked(db, es, r);
      && s.conns[r].perm == Unregistered && r !in s.listed && s.conns[r].name == a.name
      && (response != a.answer ==> OnlyBecomes(s, t, r, s.conns[r].(phase := Gone)))
      && (response == a.answer && a.checking ==> OnlyBecomes(s, t, r, s.conns[r].(phase := Handshake)))
      && (response == a.answer && !a.checking ==>
            t == FindReplaceCandidates(db,
              Put(s, r, s.conns[r].(perm := Permissions(db, a.name), nonce := DowngradedNonce(db, a.name, a.name),
                attempt := ByLogin)), r, true))
  {
    RunIsKnown(db, es);
    PossibleRunKeeps(db, es);
    AnswerIsChecked(db, es, Run(db, es), r, response);
  }

  lemma {:induction false} AnswerIsChecked(db: Db, es: seq<Event>, s: Lobby, r: Ref, response: Text)
    requires Inv(db, s, None, false) && KnownOk(db, es, s) && Possible(s, Packet(r, Password(response)))
    requires s.conns[r].phase != Connected
    ensures
      var t := Step(db, s, Packet(r, Password(response)));
      var a := LastAsked(db, es, r);
      && s.conns[r].perm == Unregistered && r !in s.listed && s.conns[r].name == a.name
      && (response != a.answer ==> OnlyBecomes(s, t, r, s.conns[r].(phase := Gone)))
      && (response == a.answer && a.checking ==> OnlyBecomes(s, t, r, s.conns[r].(phase := Handshake)))
      && (response == a.answer && !a.checking ==>
            t == FindReplaceCandidates(db,
              Put(s, r, s.conns[r].(perm := Permissions(db, a.name), nonce := DowngradedNonce(db, a.name, a.name),
                attempt := ByLogin)), r, true))
  {
    assert RecordOk(db, s.conns[r]) && AsksOk(db, es, r, s.conns[r]);
    assert Step(db, s, Packet(r, Password(response))) == HandlePassword(db, s, r, response);
  }

  // What a client was asked stands until it says something about logging in itself.
  lemma {:induction false} AskedLasts(db: Db, es: seq<Event>, more: seq<Event>, r: Ref)
    requires forall e :: e in more ==> e.Packet? ==> e.r != r || !IsAttempt(e.cmd)
    ensures LastAsked(db, es + more, r) == LastAsked(db, es, r)
    decreases |more|
  {
    if more == [] {
      assert es + more == es;
    } else {
      AskedLasts(db, es, more[..|more| - 1], r);
      assert (es + more)[..|es + more| - 1] == es + more[..|more| - 1];
    }
  }

  // From the challenge to its answer: once a client has presented itself as a registered user and has been
  // challenged, whatever happens until it answers, any answer but the digest of the challenge and the user's
  // password ends its connection and changes nobody else, and the list stays as it is.
  lemma {:induction false} OnlyTheDigestWillDo(
    db: Db, es: seq<Event>, r: Ref, cmd: Command, challenge: Text, more: seq<Event>, response: Text)
    requires cmd.CheckPassword? || (cmd.Login? && cmd.registered && cmd.version >= 5)
    requires cmd.name in db.users && cmd.challenge == Some(challenge)
    requires forall e :: e in more ==> e.Packet? ==> e.r != r || !IsAttempt(e.cmd)
    requires
      var run := es + [Packet(r, cmd)] + more;
      && GoodDb(db) && PossibleRun(db, run) && Possible(Run(db, run), Packet(r, Password(response)))
      && Run(db, run).conns[r].phase != Connected
    requires response != db.sha(challenge + db.users[cmd.name].password)
    ensures
      var s := Run(db, es + [Packet(r, cmd)] + more);
      var t := Step(db, s, Packet(r, Password(response)));
      OnlyBecomes(s, t, r, s.conns[r].(phase := Gone)) && r !in t.listed
  {
    AskedNow(db, es, r, cmd);
    AskedLasts(db, es + [Packet(r, cmd)], more, r);
    AnswersAreChecked(db, es + [Packet(r, cmd)] + more, r, response);
  }
}
