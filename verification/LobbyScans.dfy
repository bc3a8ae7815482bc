/** How the lobby's searches grow with the part of the client list that has been looked at. */
module LobbyScans {
  import opened GoText
  import opened LobbyModel
  import opened LobbyInvariant
  import opened LobbySteps
  import FreeName

  lemma {:induction false} BestGrows(s: Lobby, listed: seq<Ref>, x: Ref, nonce: Text, name: Text)
    ensures Best(s, listed + [x], nonce, name) ==
      if Same(At(s, x), nonce) && At(s, x).name == name then Some(x) else Best(s, listed, nonce, name)
  {
    if listed != [] {
      BestGrows(s, listed[1..], x, nonce, name);
      assert (listed + [x])[1..] == listed[1..] + [x];
    }
  }

  lemma {:induction false} OfflineGrows(s: Lobby, listed: seq<Ref>, x: Ref, nonce: Text, name: Text)
    ensures
      var c := At(s, x);
      Offline(s, listed + [x], nonce, name) ==
      (if Same(c, nonce) && c.name != name && c.phase == Gone then [x] else []) + Offline(s, listed, nonce, name)
  {
    if listed != [] {
      OfflineGrows(s, listed[1..], x, nonce, name);
      assert (listed + [x])[1..] == listed[1..] + [x];
    }
  }

  lemma {:induction false} OnlineGrows(s: Lobby, listed: seq<Ref>, x: Ref, nonce: Text, name: Text)
    ensures
      var c := At(s, x);
      Online(s, listed + [x], nonce, name) ==
      Online(s, listed, nonce, name) + if Same(c, nonce) && c.name != name && c.phase != Gone then [x] else []
  {
    if listed != [] {
      OnlineGrows(s, listed[1..], x, nonce, name);
      assert (listed + [x])[1..] == listed[1..] + [x];
    }
  }

  // What FindClientsToReplace has collected when it has looked at a part of the list: the best match,
  // and the others with disconnected ones in front.
  function Others(s: Lobby, listed: seq<Ref>, nonce: Text, name: Text): seq<Ref> {
    Offline(s, listed, nonce, name) + Online(s, listed, nonce, name)
  }

  lemma OthersGrow(s: Lobby, listed: seq<Ref>, x: Ref, nonce: Text, name: Text)
    ensures
      var c, so := At(s, x), Others(s, listed, nonce, name);
      Others(s, listed + [x], nonce, name) ==
      if !Same(c, nonce) || c.name == name then so else if c.phase == Gone then [x] + so else so + [x]
  {
    OfflineGrows(s, listed, x, nonce, name);
    OnlineGrows(s, listed, x, nonce, name);
  }

  lemma FindingsAre(s: Lobby, nonce: Text, name: Text)
    ensures
      var best := Best(s, s.listed, nonce, name);
      FindClientsToReplace(s, nonce, name) ==
      (if best.Some? then [best.value] else []) + Others(s, s.listed, nonce, name)
  {
  }

  // In every valid run the sanity check in front of a removal has never found anything to warn of, at
  // whatever point of a step the removal takes place.
  lemma {:induction false} SanityCheckIsSilent(db: Db, es: seq<Event>)
    requires GoodDb(db) && ValidRun(db, es)
    ensures Run(db, es).warnings == 0
  {
    RunKeeps(db, es);
  }

  lemma {:induction false} StrikeAt(listed: seq<Ref>, i: nat)
    requires i < |listed| && forall j :: 0 <= j < i ==> listed[j] != listed[i]
    ensures Strike(listed, listed[i]) == listed[..i] + listed[i + 1..]
  {
    if i > 0 {
      StrikeAt(listed[1..], i - 1);
      assert listed[1..][i - 1] == listed[i] && listed[1..][i..] == listed[i + 1..];
      assert listed[..i] == [listed[0]] + listed[1..][..i - 1];
      assert Strike(listed, listed[i]) == [listed[0]] + Strike(listed[1..], listed[i]);
    }
  }

  // A name is used when it is registered or some listed player has it.
  lemma UsedIs(db: Db, s: Lobby, name: Text)
    ensures name in Used(db, s) <==> name in db.users || HasClient(s, name).Some?
  {
    LookupIs(s, s.listed, name, false);
  }

  // t is s with c under another name.
  ghost predicate Renamed(s: Lobby, t: Lobby, c: Ref, name: Text) {
    c < |s.conns| && t == Put(s, c, s.conns[c].(name := name))
  }

  lemma NotRenamed(s: Lobby, c: Ref)
    requires c < |s.conns|
    ensures Renamed(s, s, c, s.conns[c].name)
  {
    assert s.conns[c := s.conns[c]] == s.conns;
  }

  // Renaming again.
  lemma RenamedAgain(s: Lobby, t: Lobby, c: Ref, name: Text, name': Text)
    requires Renamed(s, t, c, name)
    ensures Renamed(s, Put(t, c, At(t, c).(name := name')), c, name')
  {
    var me := s.conns[c];
    assert s.conns[c := me.(name := name)][c := me.(name := name')] == s.conns[c := me.(name := name')];
  }

  // A listed player that tries a name has it thereby taken; anyone else changes nothing by trying.
  predicate Taken(db: Db, s: Lobby, c: Ref, name: Text) {
    name in Used(db, s) || (c in s.listed && At(s, c).perm != Irc)
  }

  lemma UsedWhenTried(db: Db, s: Lobby, t: Lobby, c: Ref, name: Text)
    requires Renamed(s, t, c, name)
    ensures name in Used(db, t) <==> Taken(db, s, c, name)
  {
    assert forall x :: x != c ==> At(t, x) == At(s, x);
    assert At(t, c).name == name && At(t, c).perm == s.conns[c].perm;
    if name in Used(db, s) && name !in db.users {
      var r :| r in s.listed && At(s, r).perm != Irc && At(s, r).name == name;
      assert r in t.listed && At(t, r).perm != Irc && At(t, r).name == name;
    }
  }

  lemma Tried(db: Db, s: Lobby, t: Lobby, c: Ref, name: Text, name': Text)
    requires Renamed(s, t, c, name)
    ensures
      var u := Put(t, c, At(t, c).(name := name'));
      Renamed(s, u, c, name') && (name' in Used(db, u) <==> Taken(db, s, c, name'))
  {
    RenamedAgain(s, t, c, name, name');
    UsedWhenTried(db, s, Put(t, c, At(t, c).(name := name')), c, name');
  }

  // How the search for a name ends once the name is set.
  function NonceFor(db: Db, me: Client, base: Text): Text {
    if me.version >= BUILD20 && (me.perm == Registered || me.perm == Superuser)
    then DowngradedNonce(db, base, me.name) else me.nonce
  }

  lemma SearchEnds(db: Db, s: Lobby, t: Lobby, c: Ref, k: nat)
    requires c < |s.conns| && k == FreeIndex(db, s, c)
    requires Renamed(s, t, c, FreeName.Numbered(s.conns[c].name, if k > FreeName.TRIES then FreeName.TRIES else k))
    ensures k > FreeName.TRIES ==> FindUnconnectedName(db, s, c) == Disconnect(t, c)
    ensures k <= FreeName.TRIES ==>
      FindUnconnectedName(db, s, c) ==
      LoginDone(Put(t, c, At(t, c).(nonce := NonceFor(db, At(t, c), s.conns[c].name), perm := Unregistered)), c)
  {
    if k <= FreeName.TRIES {
      var me := s.conns[c];
      var name := FreeName.Numbered(me.name, k);
      var nonce := NonceFor(db, At(t, c), me.name);
      assert s.conns[c := me.(name := name)][c := me.(name := name, nonce := nonce, perm := Unregistered)]
        == s.conns[c := me.(name := name, nonce := nonce, perm := Unregistered)];
    }
  }

  // The name is nobody's, or belongs to a registered user while only IRC users bear it.
  predicate MayKeepName(db: Db, s: Lobby, name: Text, registered: bool) {
    || (HasClient(s, name) == None && (registered || name !in db.users))
    || (HasClient(s, name) == HasIrcClient(s, name) && registered)
  }

  // Nobody to replace: the login ends at once.
  function EnterAlone(db: Db, s: Lobby, c: Ref, registered: bool): Lobby {
    if MayKeepName(db, s, At(s, c).name, registered) then LoginDone(s, c) else FindUnconnectedName(db, s, c)
  }

  lemma ReplacingOrAlone(db: Db, s: Lobby, c: Ref, registered: bool, cs: seq<Ref>)
    requires c < |s.conns| && cs == FindClientsToReplace(s, At(s, c).nonce, At(s, c).name)
    ensures
      var t := Put(s, c, At(s, c).(candidates := Some(cs), quota := |cs|, probes := 0));
      FindReplaceCandidates(db, s, c, registered) ==
      if cs != [] then CheckCandidates(db, t, c) else EnterAlone(db, t, c, registered)
  {
  }

  // ---------------------------------------------------------------- a LOGIN in stages

  function AfterLogin(c: Client, cmd: Command): Client
    requires cmd.Login?
  {
    var me := c.(version := cmd.version, name := cmd.name, build := cmd.build, attempt := ByLogin);
    if Supported(cmd.version) && (cmd.registered || cmd.version >= BUILD20) && cmd.nonce.Some?
    then me.(nonce := cmd.nonce.value) else me
  }

  function ChallengeSent(db: Db, s: Lobby, c: Ref, challenge: Option<Text>): Lobby {
    var me := At(s, c);
    if challenge == None then Put(s, c, me.(expected := [], phase := Gone))
    else
      var expected := if me.name in db.users then db.sha(challenge.value + db.users[me.name].password) else [];
      Put(s, c, me.(expected := expected, attempt := NotYet))
  }

  function LoginGoesOn(db: Db, s: Lobby, c: Ref, cmd: Command): Lobby
    requires cmd.Login? && c < |s.conns|
  {
    var me := s.conns[c];
    if !cmd.registered then FindReplaceCandidates(db, s, c, false)
    else if cmd.version >= BUILD20 then ChallengeSent(db, s, c, cmd.challenge)
    else if !PasswordCorrect(db, me.name, me.nonce) then Disconnect(s, c)
    else FindReplaceCandidates(db, Put(s, c, me.(perm := Permissions(db, me.name))), c, true)
  }

  lemma {:induction false} LoginIs(db: Db, s: Lobby, c: Ref, cmd: Command)
    requires cmd.Login? && c < |s.conns|
    ensures
      var t := Put(s, c, AfterLogin(s.conns[c], cmd));
      var hasNonce := cmd.registered || cmd.version >= BUILD20;
      HandleLogin(db, s, c, cmd) ==
      if s.conns[c].phase == Connected then Disconnect(s, c)
      else if !Supported(cmd.version) || (hasNonce && cmd.nonce == None) || cmd.banned
              || (cmd.registered && cmd.name !in db.users)
      then Disconnect(t, c)
      else LoginGoesOn(db, t, c, cmd)
  {
    PutAgain(s, c);
  }

  lemma PutAgain(s: Lobby, r: Ref)
    ensures forall c, d :: Put(Put(s, r, c), r, d) == Put(s, r, d)
  {
  }

  // ---------------------------------------------------------------- CHECK_PWD and RELOGIN in stages

  lemma CheckPasswordIs(db: Db, s: Lobby, c: Ref, cmd: Command)
    requires cmd.CheckPassword? && c < |s.conns|
    ensures
      var t := Put(s, c, s.conns[c].(version := cmd.version, name := cmd.name, build := cmd.build));
      var u := ChallengeSent(db, t, c, cmd.challenge);
      HandleCheckPassword(db, s, c, cmd) ==
      if s.conns[c].phase == Connected then Disconnect(s, c)
      else if cmd.version < BUILD21 || cmd.name !in db.users then Disconnect(t, c)
      else Put(u, c, At(u, c).(phase := CheckPwd, attempt := NotYet))
  {
    PutAgain(s, c);
    var t := Put(s, c, s.conns[c].(version := cmd.version, name := cmd.name, build := cmd.build));
    PutAgain(t, c);
  }

  function WithIdentity(me: Client, him: Client): Client {
    me.(version := him.version, perm := him.perm, name := him.name, build := him.build,
        game := him.game, nonce := him.nonce, attempt := ByRelogin)
  }

  function Impersonated(s: Lobby, c: Ref, prior: Ref): Lobby {
    Put(s, c, WithIdentity(At(s, c), At(s, prior)))
  }

  function WithRightsOf(s: Lobby, c: Ref, prior: Ref): Lobby {
    var him := At(s, prior);
    Put(s, c, At(s, c).(version := him.version, perm := him.perm, build := him.build, nonce := him.nonce,
      attempt := ByRelogin))
  }

  lemma ImpersonatedInParts(s: Lobby, c: Ref, prior: Ref)
    ensures
      var t := WithRightsOf(s, c, prior);
      Impersonated(s, c, prior) == Put(t, c, At(t, c).(name := At(t, prior).name, game := At(t, prior).game))
  {
    PutAgain(s, c);
  }

  function ReloginGoesOn(s: Lobby, c: Ref, prior: Ref): Lobby {
    var t := Impersonated(s, c, prior);
    if At(s, prior).phase == Gone then SuccessfulRelogin(t, c, prior)
    else Put(t, prior, At(t, prior).(pending := Some(c)))
  }

  lemma ReloginIs(db: Db, s: Lobby, c: Ref, cmd: Command)
    requires cmd.Relogin?
    ensures
      var needsNonce := cmd.registered || cmd.version >= BUILD20;
      var nonce := if needsNonce && cmd.nonce.Some? then cmd.nonce.value else [];
      var found := HasClient(s, cmd.name);
      HandleRelogin(db, s, c, cmd) ==
      if At(s, c).phase != Handshake || (needsNonce && cmd.nonce == None) || cmd.banned || found == None
      then Disconnect(s, c)
      else
        var him := At(s, found.value);
        if cmd.version != him.version || cmd.build != him.build || nonce != him.nonce then Disconnect(s, c)
        else ReloginGoesOn(s, c, found.value)
  {
  }

  function Probed(s: Lobby, c: Ref): Lobby {
    Put(s, c, At(s, c).(probes := At(s, c).probes + 1))
  }

  // c waits for the answer of prior.
  function Awaiting(s: Lobby, prior: Ref, c: Ref): Lobby {
    Put(s, prior, At(s, prior).(pending := Some(c)))
  }

  lemma ProbeIs(s: Lobby, c: Ref, prior: Ref)
    ensures Probe(s, c, prior) == Awaiting(Probed(s, c), prior, c)
  {
  }

  lemma KickIs(db: Db, s: Lobby, name: Text)
    ensures
      var found := HasClient(s, name);
      Step(db, s, Kick(name)) ==
      if found.Some? && At(s, found.value).perm != Superuser
      then RemoveClient(Disconnect(s, found.value), found.value) else s
  {
  }

  function IrcRecord(nick: Text): Client {
    NEW_CLIENT.(phase := Connected, perm := Irc, name := nick, build := Ascii("IRC"), nonce := IRC_NONCE,
                announced := true, attempt := ByLogin)
  }

  function WithIrc(s: Lobby, nick: Text): Lobby {
    AddClient(s.(conns := s.conns + [IrcRecord(nick)]), |s.conns|)
  }

  lemma IrcJoinIs(db: Db, s: Lobby, nick: Text)
    ensures Step(db, s, IrcJoin(nick)) == if HasIrcClient(s, nick).Some? then s else WithIrc(s, nick)
  {
  }

  // After the sanity check in front of the removal of r.
  function Warned(s: Lobby, r: Ref): Lobby {
    s.(warnings := s.warnings + Warnings(s, At(s, r).name))
  }

  lemma RemovalIs(s: Lobby, r: Ref)
    ensures RemoveClient(s, r) == RemoveListed(Warned(s, r), r)
  {
  }
}
