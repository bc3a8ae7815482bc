/** Logging in to the metaserver (wlms/client.go, wlms/server.go) as a state machine on values:
    LOGIN, PWD_CHALLENGE, RELOGIN, the probing and replacement of prior connections, removal, the IRC
    users and the delayed announcements. Every handler and timer callback is one atomic step. */
module LobbyModel {
  import opened GoText
  import FreeName

  // A *Client, named by the order of its creation.
  type Ref = nat

  datatype Phase = Handshake | CheckPwd | Connected | Gone   // Gone is RECENTLY_DISCONNECTED
  datatype Perm = Unregistered | Registered | Superuser | Irc

  // The login attempt a connection has made, if any: a LOGIN with its PWD_CHALLENGE, or a RELOGIN.
  datatype Attempt = NotYet | ByLogin | ByRelogin

  const BUILD19 := 0
  const BUILD20 := 5
  const BUILD21 := 6

  const IRC_NONCE := Ascii("irc")
  const NO_SUCH_USER := Ascii("unregistered")

  datatype Client = Client(
    phase: Phase,
    version: int,
    perm: Perm,
    name: Text,
    build: Text,
    nonce: Text,
    expected: Text,                    // expectedResponse
    game: Option<Text>,
    pending: Option<Ref>,              // pendingLogin: who waits for our answer
    candidates: Option<seq<Ref>>,      // replaceCandidates; None is nil
    announced: bool,                   // wasAnnounced
    // bookkeeping of the model
    attempt: Attempt,
    joined: bool,                      // has been in the client list
    timers: nat,                       // delayed announcements still to fire
    quota: nat,                        // candidates found by the attempt
    probes: nat)                       // candidates it has waited for

  const NEW_CLIENT :=
    Client(Handshake, 0, Unregistered, [], [], [], [], None, None, None, false, NotYet, false, 0, 0, 0)

  datatype User = User(password: Text, perm: Perm)

  // The user database: registered users and the digest function.
  datatype Db = Db(users: map<Text, User>, sha: Text -> Text)

  datatype Notice = HasJoined(r: Ref) | HasLeft(r: Ref)

  // warnings counts how often the sanity check of RemoveClient has found a name listed twice.
  datatype Lobby = Lobby(conns: seq<Client>, listed: seq<Ref>, notices: seq<Notice>, warnings: nat)

  datatype Command =
    | Login(version: int, name: Text, build: Text, registered: bool, nonce: Option<Text>, banned: bool,
      challenge: Option<Text>)
    | Malformed(version: int, gotName: Option<Text>, gotBuild: Option<Text>)   // LOGIN or CHECK_PWD, see LobbyInput
    | CheckPassword(version: int, name: Text, build: Text, challenge: Option<Text>)
    | Password(response: Text)
    | Relogin(version: int, name: Text, build: Text, registered: bool, nonce: Option<Text>, banned: bool)
    | Leave
    | Pong
    | Chat
    | EnterGame(game: Option<Text>)
    | Garbage

  datatype Event =
    | Connect
    | Packet(r: Ref, cmd: Command)
    | StreamEnded(r: Ref)          // nothing more can be read from the connection
    | PingUnanswered(r: Ref)
    | Timeout(r: Ref)
    | Forget(r: Ref)               // ClientForgetTimeout after the connection ended
    | Kick(name: Text)
    | IrcJoin(name: Text)
    | IrcLeave(name: Text)
    | Announce(r: Ref)             // a delayed announcement fires

  // ---------------------------------------------------------------- the user database

  function Permissions(db: Db, name: Text): Perm {
    if name in db.users then db.users[name].perm else Unregistered
  }

  function DowngradedNonce(db: Db, registered: Text, given: Text): Text {
    if registered in db.users then db.sha(given + db.users[registered].password) else NO_SUCH_USER
  }

  function PasswordCorrect(db: Db, name: Text, password: Text): bool {
    name in db.users && db.users[name].password == db.sha(password)
  }

  // ---------------------------------------------------------------- the list

  function At(s: Lobby, r: Ref): Client {
    if r < |s.conns| then s.conns[r] else NEW_CLIENT.(phase := Gone)
  }

  function Put(s: Lobby, r: Ref, c: Client): Lobby {
    if r < |s.conns| then s.(conns := s.conns[r := c]) else s
  }

  // HasClient (irc = false) and HasIRCClient (irc = true)
  function Lookup(s: Lobby, listed: seq<Ref>, name: Text, irc: bool): Option<Ref> {
    if listed == [] then None
    else if At(s, listed[0]).name == name && (At(s, listed[0]).perm == Irc) == irc then Some(listed[0])
    else Lookup(s, listed[1..], name, irc)
  }

  function HasClient(s: Lobby, name: Text): Option<Ref> {
    Lookup(s, s.listed, name, false)
  }

  function HasIrcClient(s: Lobby, name: Text): Option<Ref> {
    Lookup(s, s.listed, name, true)
  }

  function Strike(listed: seq<Ref>, r: Ref): seq<Ref> {
    if listed == [] then [] else if listed[0] == r then listed[1..] else [listed[0]] + Strike(listed[1..], r)
  }

  // AddClient and RemoveClient start a delayed announcement, except for IRC users.
  function Delayed(c: Client): Client {
    if c.perm == Irc then c else c.(timers := c.timers + 1)
  }

  function AddClient(s: Lobby, r: Ref): Lobby {
    Put(s, r, Delayed(At(s, r)).(joined := true)).(listed := s.listed + [r])
  }

  // How many listed players, or IRC users, have the name.
  function Namesakes(s: Lobby, listed: seq<Ref>, name: Text, irc: bool): nat {
    if listed == [] then 0
    else
      var x := At(s, listed[|listed| - 1]);
      Namesakes(s, listed[..|listed| - 1], name, irc) + if x.name == name && (x.perm == Irc) == irc then 1 else 0
  }

  // The warnings of the sanity check in front of a removal.
  function Warnings(s: Lobby, name: Text): nat {
    var ircUsers, players := Namesakes(s, s.listed, name, true), Namesakes(s, s.listed, name, false);
    (if ircUsers > 1 then 1 else 0) + (if players > 1 then 1 else 0)
  }

  function RemoveListed(s: Lobby, r: Ref): Lobby {
    if r in s.listed then Put(s, r, Delayed(At(s, r))).(listed := Strike(s.listed, r)) else s
  }

  function RemoveClient(s: Lobby, r: Ref): Lobby {
    RemoveListed(s.(warnings := s.warnings + Warnings(s, At(s, r).name)), r)
  }

  function Disconnect(s: Lobby, r: Ref): Lobby {
    Put(s, r, At(s, r).(phase := Gone))
  }

  function AnnounceNow(s: Lobby, r: Ref): Lobby {
    var here := r in s.listed;
    if At(s, r).announced == here then s
    else Put(s, r, At(s, r).(announced := here)).(notices := s.notices + [if here then HasJoined(r) else HasLeft(r)])
  }

  // ---------------------------------------------------------------- candidates for replacement

  function Same(c: Client, nonce: Text): bool {
    c.pending == None && c.nonce == nonce
  }

  // The last listed client with the nonce and the name.
  function Best(s: Lobby, listed: seq<Ref>, nonce: Text, name: Text): Option<Ref> {
    if listed == [] then None
    else
      var later := Best(s, listed[1..], nonce, name);
      if later.Some? then later
      else if Same(At(s, listed[0]), nonce) && At(s, listed[0]).name == name then Some(listed[0])
      else None
  }

  // Disconnected ones with the nonce and another name, the last in the list first.
  function Offline(s: Lobby, listed: seq<Ref>, nonce: Text, name: Text): seq<Ref> {
    if listed == [] then []
    else
      var c := At(s, listed[0]);
      Offline(s, listed[1..], nonce, name)
      + if Same(c, nonce) && c.name != name && c.phase == Gone then [listed[0]] else []
  }

  // The others with the nonce and another name, in list order.
  function Online(s: Lobby, listed: seq<Ref>, nonce: Text, name: Text): seq<Ref> {
    if listed == [] then []
    else
      var c := At(s, listed[0]);
      (if Same(c, nonce) && c.name != name && c.phase != Gone then [listed[0]] else [])
      + Online(s, listed[1..], nonce, name)
  }

  function FindClientsToReplace(s: Lobby, nonce: Text, name: Text): seq<Ref> {
    var best := Best(s, s.listed, nonce, name);
    (if best.Some? then [best.value] else []) + Offline(s, s.listed, nonce, name) + Online(s, s.listed, nonce, name)
  }

  // ---------------------------------------------------------------- finishing a login

  function Enter(s: Lobby, c: Ref): Lobby {
    var t := AddClient(s, c);
    Put(t, c, At(t, c).(phase := Connected, candidates := None))
  }

  function LoginDone(s: Lobby, c: Ref): Lobby {
    if At(s, c).phase != Handshake then Disconnect(s, c) else Enter(s, c)
  }

  // c takes the name and the game of old, which leaves the list.
  function TakeName(s: Lobby, c: Ref, prior: Ref): Lobby {
    RemoveClient(Put(s, c, At(s, c).(name := At(s, prior).name, game := At(s, prior).game)), prior)
  }

  function TakeOver(s: Lobby, c: Ref, prior: Ref): Lobby {
    LoginDone(TakeName(s, c, prior), c)
  }

  // Names findUnconnectedName must avoid.
  function Used(db: Db, s: Lobby): set<Text> {
    db.users.Keys + set r | r in s.listed && At(s, r).perm != Irc :: At(s, r).name
  }

  // The index the search stops at. A player that is itself listed finds itself under every new name.
  function FreeIndex(db: Db, s: Lobby, c: Ref): nat {
    if c in s.listed && At(s, c).perm != Irc then FreeName.TRIES + 1
    else FreeName.FirstFree(Used(db, s), At(s, c).name, 1)
  }

  function FindUnconnectedName(db: Db, s: Lobby, c: Ref): Lobby {
    var me := At(s, c);
    var k := FreeIndex(db, s, c);
    if k > FreeName.TRIES then
      Disconnect(Put(s, c, me.(name := FreeName.Numbered(me.name, FreeName.TRIES))), c)
    else
      var name := FreeName.Numbered(me.name, k);
      var nonce :=
        if me.version >= BUILD20 && (me.perm == Registered || me.perm == Superuser)
        then DowngradedNonce(db, me.name, name) else me.nonce;
      LoginDone(Put(s, c, me.(name := name, nonce := nonce, perm := Unregistered)), c)
  }

  // Whoever takes another name than its own gives up its permissions.
  function Downgrade(db: Db, me: Client, other: Text): Client {
    if other != me.name && me.perm != Unregistered
    then me.(nonce := DowngradedNonce(db, me.name, other), perm := Unregistered)
    else me
  }

  function CandidatesOf(c: Client): seq<Ref> {
    match c.candidates case None => [] case Some(cs) => cs
  }

  function CheckCandidates(db: Db, s: Lobby, c: Ref): Lobby
    requires c < |s.conns|
    decreases |CandidatesOf(At(s, c))|
  {
    var me := At(s, c);
    var cs := CandidatesOf(me);
    if me.phase != Handshake then Disconnect(s, c)
    else if cs == [] then FindUnconnectedName(db, s, c)
    else
      var prior := cs[0];
      var t := Put(s, c, Downgrade(db, me, At(s, prior).name).(candidates := Some(cs[1..])));
      if At(t, prior).pending.Some? then CheckCandidates(db, t, c)
      else if At(t, prior).phase == Gone then TakeOver(t, c, prior)
      else Probe(t, c, prior)
  }

  // A fast ping to old; c waits for the answer.
  function Probe(s: Lobby, c: Ref, prior: Ref): Lobby {
    var t := Put(s, c, At(s, c).(probes := At(s, c).probes + 1));
    Put(t, prior, At(t, prior).(pending := Some(c)))
  }

  function FindReplaceCandidates(db: Db, s: Lobby, c: Ref, registered: bool): Lobby
    requires c < |s.conns|
  {
    var me := At(s, c);
    var cs := FindClientsToReplace(s, me.nonce, me.name);
    var t := Put(s, c, me.(candidates := Some(cs), quota := |cs|, probes := 0));
    if cs != [] then CheckCandidates(db, t, c)
    else if HasClient(t, me.name) == None && (registered || me.name !in db.users) then LoginDone(t, c)
    else if HasClient(t, me.name) == HasIrcClient(t, me.name) && registered then LoginDone(t, c)
    else FindUnconnectedName(db, t, c)
  }

  // ---------------------------------------------------------------- commands

  predicate Supported(version: int) {
    version == BUILD19 || version == BUILD20 || version == BUILD21
  }

  function HandleLogin(db: Db, s: Lobby, c: Ref, cmd: Command): Lobby
    requires cmd.Login? && c < |s.conns|
  {
    if At(s, c).phase == Connected then Disconnect(s, c)
    else
      var me := At(s, c).(version := cmd.version, name := cmd.name, build := cmd.build, attempt := ByLogin);
      var hasNonce := cmd.registered || cmd.version >= BUILD20;
      if !Supported(cmd.version) || (hasNonce && cmd.nonce == None) then Disconnect(Put(s, c, me), c)
      else
        var me' := if hasNonce then me.(nonce := cmd.nonce.value) else me;
        if cmd.banned || (cmd.registered && cmd.name !in db.users) then Disconnect(Put(s, c, me'), c)
        else if cmd.registered && cmd.version >= BUILD20 then
          if cmd.challenge == None then Disconnect(Put(s, c, me'.(expected := [])), c)
          else
            Put(s, c, me'.(expected := db.sha(cmd.challenge.value + db.users[cmd.name].password), attempt := NotYet))
        else if cmd.registered then
          if !PasswordCorrect(db, cmd.name, me'.nonce) then Disconnect(Put(s, c, me'), c)
          else FindReplaceCandidates(db, Put(s, c, me'.(perm := Permissions(db, cmd.name))), c, true)
        else FindReplaceCandidates(db, Put(s, c, me'), c, false)
  }

  // The fields stored before the error stay.
  function HandleMalformed(s: Lobby, c: Ref, cmd: Command): Lobby
    requires cmd.Malformed?
  {
    var me := At(s, c);
    if me.phase == Connected then Disconnect(s, c)
    else
      Disconnect(Put(s, c, me.(version := cmd.version,
                               name := if cmd.gotName.Some? then cmd.gotName.value else me.name,
                               build := if cmd.gotBuild.Some? then cmd.gotBuild.value else me.build)), c)
  }

  function HandleCheckPassword(db: Db, s: Lobby, c: Ref, cmd: Command): Lobby
    requires cmd.CheckPassword? && c < |s.conns|
  {
    if At(s, c).phase == Connected then Disconnect(s, c)
    else
      var me := At(s, c).(version := cmd.version, name := cmd.name, build := cmd.build);
      if cmd.version < BUILD21 || cmd.name !in db.users then Disconnect(Put(s, c, me), c)
      else if cmd.challenge == None then Put(s, c, me.(expected := [], phase := CheckPwd, attempt := NotYet))
      else
        Put(s, c, me.(expected := db.sha(cmd.challenge.value + db.users[cmd.name].password),
                      phase := CheckPwd, attempt := NotYet))
  }

  function HandlePassword(db: Db, s: Lobby, c: Ref, response: Text): Lobby
    requires c < |s.conns|
  {
    var me := At(s, c);
    if me.expected != response then Disconnect(s, c)
    else if me.phase == Handshake then
      FindReplaceCandidates(db,
        Put(s, c, me.(perm := Permissions(db, me.name), nonce := DowngradedNonce(db, me.name, me.name),
          attempt := ByLogin)), c, true)
    else if me.phase == CheckPwd then Put(s, c, me.(phase := Handshake, attempt := NotYet))
    else Disconnect(s, c)
  }

  // Legacy relogin: the old connection leaves, the new one enters under the identity it copied.
  function SuccessfulRelogin(s: Lobby, c: Ref, prior: Ref): Lobby {
    var t := AddClient(RemoveClient(s, prior), c);
    Put(t, c, At(t, c).(phase := Connected))
  }

  function HandleRelogin(db: Db, s: Lobby, c: Ref, cmd: Command): Lobby
    requires cmd.Relogin?
  {
    var needsNonce := cmd.registered || cmd.version >= BUILD20;
    var nonce := if needsNonce && cmd.nonce.Some? then cmd.nonce.value else [];
    var found := HasClient(s, cmd.name);
    if At(s, c).phase != Handshake || (needsNonce && cmd.nonce == None) || cmd.banned || found == None
    then Disconnect(s, c)
    else
      var prior := found.value;
      var him := At(s, prior);
      if cmd.version != him.version || cmd.build != him.build || nonce != him.nonce then Disconnect(s, c)
      else
        var t := Put(s, c, At(s, c).(version := him.version, perm := him.perm, name := him.name, build := him.build,
                                     game := him.game, nonce := him.nonce, attempt := ByRelogin));
        if him.phase == Gone then SuccessfulRelogin(t, c, prior)
        else Put(t, prior, At(t, prior).(pending := Some(c)))
  }

  function Handle(db: Db, s: Lobby, r: Ref, cmd: Command): Lobby
    requires r < |s.conns|
  {
    match cmd
    case Login(_, _, _, _, _, _, _) => HandleLogin(db, s, r, cmd)
    case Malformed(_, _, _) => HandleMalformed(s, r, cmd)
    case CheckPassword(_, _, _, _) => HandleCheckPassword(db, s, r, cmd)
    case Password(response) => HandlePassword(db, s, r, response)
    case Relogin(_, _, _, _, _, _) => HandleRelogin(db, s, r, cmd)
    case Leave => RemoveClient(Disconnect(Put(s, r, At(s, r).(game := None)), r), r)
    case Pong => s
    case Chat => if At(s, r).announced then s else AnnounceNow(s, r)
    case EnterGame(game) => Put(s, r, At(s, r).(game := game))
    case Garbage => Disconnect(s, r)
  }

  // A packet from a client proves it alive: whoever waits for it must look elsewhere.
  function Answer(db: Db, s: Lobby, x: Ref): Lobby
    requires x < |s.conns|
  {
    match At(s, x).pending
    case None => s
    case Some(p) =>
      if p >= |s.conns| then s
      else
        var t := if At(s, p).candidates == None then Disconnect(s, p) else CheckCandidates(db, s, p);
        Put(t, x, At(t, x).(pending := None))
  }

  // A silent client is disconnected, and whoever waits for it takes its place.
  function FailedPong(s: Lobby, x: Ref): Lobby {
    var t := Disconnect(s, x);
    match At(s, x).pending
    case None => t
    case Some(p) => if At(t, p).candidates == None then SuccessfulRelogin(t, p, x) else TakeOver(t, p, x)
  }

  function Step(db: Db, s: Lobby, e: Event): Lobby {
    match e
    case Connect => s.(conns := s.conns + [NEW_CLIENT])
    case Packet(r, cmd) =>
      if r >= |s.conns| then s
      else
        var t := Answer(db, s, r);
        if r < |t.conns| then Handle(db, t, r, cmd) else t
    case StreamEnded(r) => if At(s, r).phase == Gone then s else FailedPong(s, r)
    case PingUnanswered(r) => FailedPong(s, r)
    case Timeout(r) => Disconnect(s, r)
    case Forget(r) =>
      if HasClient(s, At(s, r).name) == Some(r) then RemoveClient(Put(s, r, At(s, r).(game := None)), r) else s
    case Kick(name) =>
      var found := HasClient(s, name);
      if found.Some? && At(s, found.value).perm != Superuser
      then RemoveClient(Disconnect(s, found.value), found.value) else s
    case IrcJoin(name) =>
      if HasIrcClient(s, name).Some? then s
      else
        var c := NEW_CLIENT.(phase := Connected, perm := Irc, name := name, build := Ascii("IRC"), nonce := IRC_NONCE,
                             announced := true, attempt := ByLogin);
        AddClient(s.(conns := s.conns + [c]), |s.conns|)
    case IrcLeave(name) =>
      var found := HasIrcClient(s, name);
      if found.Some? then RemoveClient(s, found.value) else s
    case Announce(r) =>
      if At(s, r).timers == 0 then s
      else AnnounceNow(Put(s, r, At(s, r).(timers := At(s, r).timers - 1)), r)
  }

  const EMPTY := Lobby([], [], [], 0)

  function Run(db: Db, es: seq<Event>): Lobby {
    if es == [] then EMPTY else Step(db, Run(db, es[..|es| - 1]), es[|es| - 1])
  }

  // ---------------------------------------------------------------- the environment

  // No user has IRC permission, and no digest is the nonce of the IRC users.
  ghost predicate GoodDb(db: Db) {
    && (forall n :: n in db.users ==> db.users[n].perm != Irc)
    && (forall t :: db.sha(t) != IRC_NONCE)
  }

  // The candidate checkCandidates will settle on.
  function Pick(s: Lobby, cs: seq<Ref>): Option<Ref> {
    if cs == [] then None else if At(s, cs[0]).pending.Some? then Pick(s, cs[1..]) else Some(cs[0])
  }

  // Commands about logging in, in order or not.
  predicate IsAttempt(cmd: Command) {
    cmd.Login? || cmd.Malformed? || cmd.CheckPassword? || cmd.Password? || cmd.Relogin?
  }

  // Nobody logs in under the nonce of the IRC users, or makes a second attempt while its first one
  // waits for another client's answer. Password checks, refused attempts and whatever a client says
  // once it is connected are not restricted.
  ghost predicate Orderly(me: Client, cmd: Command) {
    && (IsAttempt(cmd) ==> me.attempt == NotYet || me.phase == Connected)
    && (cmd.Login? ==> cmd.nonce != Some(IRC_NONCE))
  }

  // What can happen: a disconnected connection delivers nothing, and a client that failed to answer
  // does not fail again for one that has been let in on that account.
  ghost predicate Possible(s: Lobby, e: Event) {
    match e
    case Packet(r, cmd) =>
      r < |s.conns| && s.conns[r].phase != Gone && s.conns[r].perm != Irc && Orderly(s.conns[r], cmd)
    case StreamEnded(r) => r < |s.conns| && s.conns[r].perm != Irc
    case PingUnanswered(r) =>
      && r < |s.conns| && s.conns[r].perm != Irc
      && (s.conns[r].pending.Some? ==> !At(s, s.conns[r].pending.value).joined)
    case Timeout(r) => r < |s.conns| && s.conns[r].perm != Irc
    case Forget(r) => r < |s.conns| && s.conns[r].perm != Irc
    case _ => true
  }

  // prior's name can be taken over: prior is still listed, or nobody has the name any more.
  predicate Replaceable(s: Lobby, prior: Ref) {
    prior in s.listed || HasClient(s, At(s, prior).name) == None
  }

  // Whoever would take the place of r if r failed, comes into the list by that.
  predicate FailureIsClean(s: Lobby, r: Ref) {
    match At(s, r).pending
    case None => true
    case Some(p) => At(s, p).candidates == None || At(s, p).phase == Handshake ==> Replaceable(s, r)
  }

  // The same for the disconnected client that whoever waits for r would replace at once.
  predicate AnswerIsClean(s: Lobby, c: Ref) {
    var prior := Pick(s, CandidatesOf(At(s, c)));
    At(s, c).phase == Handshake && prior.Some? && At(s, prior.value).phase == Gone ==> Replaceable(s, prior.value)
  }

  // The step replaces nobody whose name has gone to somebody else in the meantime.
  predicate Clean(s: Lobby, e: Event) {
    match e
    case Packet(r, _) => At(s, r).pending.Some? ==> AnswerIsClean(s, At(s, r).pending.value)
    case StreamEnded(r) => At(s, r).phase != Gone ==> FailureIsClean(s, r)
    case PingUnanswered(r) => FailureIsClean(s, r)
    case _ => true
  }

  // A run of possible events, and one in which moreover every step is clean.
  ghost predicate PossibleRun(db: Db, es: seq<Event>) {
    es == [] || (PossibleRun(db, es[..|es| - 1]) && Possible(Run(db, es[..|es| - 1]), es[|es| - 1]))
  }

  ghost predicate ValidRun(db: Db, es: seq<Event>) {
    es == [] ||
    (var before, e := es[..|es| - 1], es[|es| - 1];
     ValidRun(db, before) && Possible(Run(db, before), e) && Clean(Run(db, before), e))
  }
}
