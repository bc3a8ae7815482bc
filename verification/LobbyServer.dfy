/** The metaserver's objects (wlms/client.go, wlms/server.go), proved to take the steps of LobbyModel. */
module LobbyServer {
  import opened GoText
  import opened LobbyInvariant
  import opened LobbySteps
  import opened LobbyScans
  import FreeName
  import Bans
  import M = LobbyModel

  type BanList = Bans.BanList

  type Ref = M.Ref

  // A possible step keeps the core of the invariant, and if it is clean, the part about names.
  ghost predicate KeptBy(db: M.Db, s: M.Lobby, e: M.Event, t: M.Lobby) {
    forall named ::
      M.GoodDb(db) && Inv(db, s, None, named) && M.Possible(s, e) && (named ==> M.Clean(s, e)) ==>
        Inv(db, t, None, named)
  }

  lemma {:induction false} KeptIfClean(db: M.Db, s: M.Lobby, e: M.Event)
    ensures KeptBy(db, s, e, M.Step(db, s, e))
  {
    forall named | M.GoodDb(db) && Inv(db, s, None, named) && M.Possible(s, e) && (named ==> M.Clean(s, e))
      ensures Inv(db, M.Step(db, s, e), None, named)
    {
      StepKeeps(db, s, e, named);
    }
  }

  ghost function Ids(cs: seq<Client>): (ids: seq<Ref>)
    ensures |ids| == |cs| && forall i :: 0 <= i < |cs| ==> ids[i] == cs[i].id
  {
    seq(|cs|, i requires 0 <= i < |cs| => cs[i].id)
  }

  ghost function IdOf(c: Client?): Option<Ref> {
    if c == null then None else Some(c.id)
  }

  lemma IdsConcat(a: seq<Client>, b: seq<Client>)
    ensures Ids(a + b) == Ids(a) + Ids(b)
    ensures |a| == 1 ==> Ids(a) == [a[0].id]
    ensures |b| == 1 ==> Ids(b) == [b[0].id]
  {
  }

  lemma IdsWithout(cs: seq<Client>, i: nat)
    requires i < |cs|
    ensures Ids(cs[..i] + cs[i + 1..]) == Ids(cs)[..i] + Ids(cs)[i + 1..]
  {
  }

  ghost function Records(cs: seq<Client>): (rs: seq<M.Client>)
    reads cs
    ensures |rs| == |cs| && forall i :: 0 <= i < |cs| ==> rs[i] == cs[i].Record()
  {
    seq(|cs|, i requires 0 <= i < |cs| reads cs => cs[i].Record())
  }

  class Client {
    ghost const id: Ref
    const ip: Text                        // the address its connection comes from
    var state: M.Phase
    var protocolVersion: int
    var permissions: M.Perm
    var userName: Text
    var buildId: Text
    var nonce: Text
    var expectedResponse: Text
    var game: Option<Text>
    var pendingLogin: Client?
    var replaceCandidates: Option<seq<Client>>
    var wasAnnounced: bool
    // bookkeeping of the model
    ghost var attempt: M.Attempt
    ghost var joined: bool
    ghost var timers: nat
    ghost var quota: nat
    ghost var probes: nat

    ghost function Record(): M.Client
      reads this
    {
      M.Client(state, protocolVersion, permissions, userName, buildId, nonce, expectedResponse, game,
        if pendingLogin == null then None else Some(pendingLogin.id),
        if replaceCandidates == None then None else Some(Ids(replaceCandidates.value)),
        wasAnnounced, attempt, joined, timers, quota, probes)
    }

    constructor (ghost id: Ref, ip: Text)
      ensures this.id == id && this.ip == ip && Record() == M.NEW_CLIENT
    {
      this.id, this.ip := id, ip;
      state, protocolVersion, permissions := M.Handshake, 0, M.Unregistered;
      userName, buildId, nonce, expectedResponse, game := [], [], [], [], None;
      pendingLogin, replaceCandidates, wasAnnounced := null, None, false;
      attempt, joined, timers, quota, probes := M.NotYet, false, 0, 0, 0;
    }

    constructor Irc(ghost id: Ref, nick: Text)
      ensures this.id == id
      ensures Record() == IrcRecord(nick)
    {
      this.id, ip := id, [];
      state, protocolVersion, permissions := M.Connected, 0, M.Irc;
      userName, buildId, nonce, expectedResponse, game := nick, Ascii("IRC"), Ascii("irc"), [], None;
      pendingLogin, replaceCandidates, wasAnnounced := null, None, true;
      attempt, joined, timers, quota, probes := M.ByLogin, false, 0, 0, 0;
    }

    method SetRights(version: int, permissions: M.Perm, build: Text, nonce: Text)
      modifies this`protocolVersion, this`permissions, this`buildId, this`nonce, this`attempt
      ensures Record() == old(Record()).(version := version, perm := permissions, build := build, nonce := nonce,
        attempt := M.ByRelogin)
      ensures pendingLogin == old(pendingLogin) && replaceCandidates == old(replaceCandidates)
    {
      protocolVersion, this.permissions, buildId, this.nonce := version, permissions, build, nonce;
      attempt := M.ByRelogin;
    }

    method ReadPart(cmd: M.Command)
      requires cmd.Malformed?
      modifies this`protocolVersion, this`userName, this`buildId
      ensures
        Record() == old(Record()).(version := cmd.version,
                                   name := if cmd.gotName.Some? then cmd.gotName.value else old(userName),
                                   build := if cmd.gotBuild.Some? then cmd.gotBuild.value else old(buildId))
      ensures pendingLogin == old(pendingLogin) && replaceCandidates == old(replaceCandidates)
    {
      protocolVersion := cmd.version;
      if cmd.gotName.Some? {
        userName := cmd.gotName.value;
      }
      if cmd.gotBuild.Some? {
        buildId := cmd.gotBuild.value;
      }
    }

    // The fields a LOGIN packet sets; the nonce only when the packet is well formed up to there.
    method ReadLogin(cmd: M.Command)
      requires cmd.Login?
      modifies this`protocolVersion, this`userName, this`buildId, this`nonce, this`attempt
      ensures Record() == AfterLogin(old(Record()), cmd)
      ensures pendingLogin == old(pendingLogin) && replaceCandidates == old(replaceCandidates)
    {
      protocolVersion, userName, buildId := cmd.version, cmd.name, cmd.build;
      attempt := M.ByLogin;
      if M.Supported(cmd.version) && (cmd.registered || cmd.version >= M.BUILD20) && cmd.nonce.Some? {
        nonce := cmd.nonce.value;
      }
    }
  }

  class Server {
    const db: M.Db
    var clients: seq<Client>
    ghost var all: seq<Client>            // every client object there has been
    ghost var notices: seq<M.Notice>
    var warnings: nat                     // what the sanity check of RemoveClient has logged

    ghost predicate Knows(c: Client)
      reads this
    {
      c in all
    }

    // Clients refer to one another only within the server.
    ghost predicate Closed(c: Client)
      reads this, c
    {
      && (c.pendingLogin != null ==> Knows(c.pendingLogin))
      && (c.replaceCandidates.Some? ==> forall d :: d in c.replaceCandidates.value ==> Knows(d))
    }

    ghost predicate Valid()
      reads this, all
    {
      && (forall i :: 0 <= i < |all| ==> all[i].id == i && Closed(all[i]))
      && (forall c :: c in clients ==> Knows(c))
    }

    ghost function View(): M.Lobby
      reads this, all
    {
      M.Lobby(Records(all), Ids(clients), notices, warnings)
    }

    lemma Seen(c: Client)
      requires Valid() && Knows(c)
      ensures c.id < |all| && all[c.id] == c && M.At(View(), c.id) == c.Record()
    {
      var i :| 0 <= i < |all| && all[i] == c;
    }

    // Only c has changed.
    twostate lemma OnlyChanged(c: Client)
      requires old(Valid()) && Knows(c) && all == old(all) && clients == old(clients)
      requires notices == old(notices) && warnings == old(warnings)
      requires Closed(c) && forall i :: 0 <= i < |all| && all[i] != c ==> unchanged(all[i])
      ensures Valid() && View() == M.Put(old(View()), c.id, c.Record())
    {
      forall i | 0 <= i < |all|
        ensures all[i].id == i && Closed(all[i]) && (all[i] != c ==> all[i].Record() == old(all[i].Record()))
      {
        assert old(Closed(all[i]));
        if all[i] != c { assert unchanged(all[i]); }
      }
      Seen(c);
    }

    constructor (db: M.Db)
      ensures Valid() && View() == M.EMPTY && this.db == db
    {
      this.db, clients, all, notices, warnings := db, [], [], [], 0;
    }

    method Disconnect(c: Client)
      requires Valid() && Knows(c)
      modifies c`state
      ensures Valid() && View() == M.Disconnect(old(View()), c.id) && c.state == M.Gone
    {
      Seen(c);
      c.state := M.Gone;
      OnlyChanged(c);
    }

    // ---------------------------------------------------------------- the list

    // Different objects have different numbers.
    lemma Injective(c: Client, d: Client)
      requires Valid() && Knows(c) && Knows(d) && c.id == d.id
      ensures c == d
    {
      Seen(c);
      Seen(d);
    }

    // Only the list has changed.
    twostate lemma OnlyListChanged()
      requires old(Valid()) && all == old(all) && notices == old(notices) && warnings == old(warnings)
      requires (forall c :: c in clients ==> Knows(c)) && forall i :: 0 <= i < |all| ==> unchanged(all[i])
      ensures Valid() && View() == old(View()).(listed := Ids(clients))
    {
      forall i | 0 <= i < |all| ensures all[i].id == i && Closed(all[i]) && all[i].Record() == old(all[i].Record()) {
        assert old(Closed(all[i])) && unchanged(all[i]);
      }
      assert Records(all) == old(Records(all));
    }

    // Starts a delayed announcement, except for IRC users.
    method Schedule(c: Client, ghost joining: bool)
      requires Valid() && Knows(c)
      modifies c`timers, c`joined
      ensures Valid()
      ensures
        var me := M.At(old(View()), c.id);
        View() == M.Put(old(View()), c.id, M.Delayed(me).(joined := me.joined || joining))
    {
      Seen(c);
      if c.permissions != M.Irc {
        c.timers := c.timers + 1;
      }
      c.joined := c.joined || joining;
      assert c.Record() == M.Delayed(old(c.Record())).(joined := c.joined);
      OnlyChanged(c);
    }

    method PushBack(c: Client)
      requires Valid() && Knows(c)
      modifies this`clients
      ensures Valid() && View() == old(View()).(listed := old(View()).listed + [c.id]) && clients == old(clients) + [c]
    {
      IdsConcat(clients, [c]);
      clients := clients + [c];
      OnlyListChanged();
    }

    method Remove(i: nat)
      requires Valid() && i < |clients|
      modifies this`clients
      ensures Valid() && View() == old(View()).(listed := old(View()).listed[..i] + old(View()).listed[i + 1..])
      ensures clients == old(clients[..i] + clients[i + 1..])
    {
      IdsWithout(clients, i);
      clients := clients[..i] + clients[i + 1..];
      assert forall c :: c in clients ==> c in old(clients) && Knows(c);
      OnlyListChanged();
    }

    method AddClient(c: Client)
      requires Valid() && Knows(c)
      modifies this`clients, c`timers, c`joined
      ensures Valid() && View() == M.AddClient(old(View()), c.id) && clients == old(clients) + [c]
    {
      Schedule(c, true);
      PushBack(c);
    }

    // The sanity check warns of namesakes of the client; then it is removed if it is around.
    method RemoveClient(c: Client)
      requires Valid() && Knows(c)
      modifies this`clients, this`warnings, c`timers, c`joined
      ensures Valid() && View() == M.RemoveClient(old(View()), c.id)
    {
      RemovalIs(View(), c.id);
      CheckNamesakes(c);
      RemoveListed(c);
    }

    method CheckNamesakes(c: Client)
      requires Valid() && Knows(c)
      modifies this`warnings
      ensures Valid() && View() == Warned(old(View()), c.id)
    {
      Seen(c);
      var cntIrc, cntGame := CountNamesakes(c.userName);
      Warn((if cntIrc > 1 then 1 else 0) + if cntGame > 1 then 1 else 0);
    }

    method Warn(n: nat)
      requires Valid()
      modifies this`warnings
      ensures Valid() && View() == old(View()).(warnings := old(View()).warnings + n)
    {
      warnings := warnings + n;
    }

    method RemoveListed(c: Client)
      requires Valid() && Knows(c)
      modifies this`clients, c`timers, c`joined
      ensures Valid() && View() == M.RemoveListed(old(View()), c.id)
    {
      var i := IndexOf(c);
      if i < |clients| {
        Schedule(c, false);
        Remove(i);
      }
    }

    // The place of the client in the list, or the length of the list.
    method IndexOf(c: Client) returns (i: nat)
      requires Valid() && Knows(c)
      ensures i <= |clients| && (i < |clients| ==> clients[i] == c) && (i == |clients| <==> c !in clients)
      ensures i == |clients| <==> c.id !in View().listed
      ensures i < |clients| ==> M.Strike(View().listed, c.id) == View().listed[..i] + View().listed[i + 1..]
    {
      i := 0;
      while i < |clients| && clients[i] != c
        invariant i <= |clients| && forall j :: 0 <= j < i ==> clients[j] != c
      {
        i := i + 1;
      }
      forall j | 0 <= j < i ensures Ids(clients)[j] != c.id {
        if Ids(clients)[j] == c.id { Injective(clients[j], c); }
      }
      if i < |clients| {
        assert Ids(clients)[i] == c.id;
        StrikeAt(Ids(clients), i);
      }
    }

    method CountNamesakes(name: Text) returns (cntIrc: nat, cntGame: nat)
      requires Valid()
      ensures cntIrc == M.Namesakes(View(), View().listed, name, true)
      ensures cntGame == M.Namesakes(View(), View().listed, name, false)
    {
      cntIrc, cntGame := 0, 0;
      var i := 0;
      ghost var ids := Ids(clients);
      while i < |clients|
        invariant i <= |clients|
        invariant cntIrc == M.Namesakes(View(), ids[..i], name, true)
        invariant cntGame == M.Namesakes(View(), ids[..i], name, false)
      {
        Seen(clients[i]);
        assert ids[..i + 1][..i] == ids[..i];
        if clients[i].userName == name {
          if clients[i].permissions == M.Irc {
            cntIrc := cntIrc + 1;
          } else {
            cntGame := cntGame + 1;
          }
        }
        i := i + 1;
      }
      assert ids[..i] == ids;
    }

    method HasClient(name: Text) returns (r: Client?)
      requires Valid()
      ensures IdOf(r) == M.HasClient(View(), name)
      ensures r != null ==> r in clients && r.userName == name && r.permissions != M.Irc
    {
      var i := 0;
      ghost var ids := Ids(clients);
      while i < |clients|
        invariant i <= |clients| && M.Lookup(View(), ids, name, false) == M.Lookup(View(), ids[i..], name, false)
      {
        Seen(clients[i]);
        if clients[i].userName == name && clients[i].permissions != M.Irc {
          return clients[i];
        }
        assert ids[i..][1..] == ids[i + 1..];
        i := i + 1;
      }
      r := null;
    }

    method HasIRCClient(name: Text) returns (r: Client?)
      requires Valid()
      ensures IdOf(r) == M.HasIrcClient(View(), name)
      ensures r != null ==> r in clients && r.userName == name && r.permissions == M.Irc
    {
      var i := 0;
      ghost var ids := Ids(clients);
      while i < |clients|
        invariant i <= |clients| && M.Lookup(View(), ids, name, true) == M.Lookup(View(), ids[i..], name, true)
      {
        Seen(clients[i]);
        if clients[i].userName == name && clients[i].permissions == M.Irc {
          return clients[i];
        }
        assert ids[i..][1..] == ids[i + 1..];
        i := i + 1;
      }
      r := null;
    }

    method HasClientObject(c: Client) returns (here: bool)
      requires Valid() && Knows(c)
      ensures here <==> c in clients
      ensures here <==> c.id in View().listed
    {
      var i := IndexOf(c);
      here := i < |clients|;
    }

    // What the next client adds to the findings.
    lemma NextFinding(i: nat, nonce: Text, name: Text)
      requires Valid() && i < |clients|
      ensures
        var v, part, client := View(), Ids(clients)[..i], clients[i];
        var mine := client.pendingLogin == null && client.nonce == nonce;
        var so := Others(v, part, nonce, name);
        && M.Best(v, Ids(clients)[..i + 1], nonce, name) ==
             (if mine && client.userName == name then Some(client.id) else M.Best(v, part, nonce, name))
        && Others(v, Ids(clients)[..i + 1], nonce, name) ==
             (if !mine || client.userName == name then so
              else if client.state == M.Gone then [client.id] + so else so + [client.id])
    {
      Seen(clients[i]);
      var part := Ids(clients)[..i];
      assert Ids(clients)[..i + 1] == part + [clients[i].id];
      BestGrows(View(), part, clients[i].id, nonce, name);
      OthersGrow(View(), part, clients[i].id, nonce, name);
    }

    // What has been found among the first i clients.
    ghost predicate Found(i: nat, nonce: Text, name: Text, best: Client?, res: seq<Client>)
      requires Valid() && i <= |clients|
      reads this, all
    {
      && IdOf(best) == M.Best(View(), Ids(clients)[..i], nonce, name)
      && Ids(res) == Others(View(), Ids(clients)[..i], nonce, name)
      && (forall c :: c in res ==> c in clients) && (best != null ==> best in clients)
    }

    // Takes one more client into account: the slice grows at either end.
    method Consider(i: nat, nonce: Text, name: Text, best: Client?, res: seq<Client>)
      returns (best': Client?, res': seq<Client>)
      requires Valid() && i < |clients| && Found(i, nonce, name, best, res)
      ensures Found(i + 1, nonce, name, best', res')
    {
      var client := clients[i];
      NextFinding(i, nonce, name);
      IdsConcat([client], res);
      IdsConcat(res, [client]);
      best', res' := best, res;
      if client.pendingLogin == null && client.nonce == nonce {
        if client.userName == name {
          best' := client;
        } else if client.state == M.Gone {
          res' := [client] + res;
        } else {
          res' := res + [client];
        }
      }
    }

    // The best match goes in front at last.
    method FindClientsToReplace(nonce: Text, name: Text) returns (res: seq<Client>)
      requires Valid()
      ensures Ids(res) == M.FindClientsToReplace(View(), nonce, name)
      ensures forall c :: c in res ==> c in clients
    {
      res := [];
      var best: Client? := null;
      var i := 0;
      while i < |clients|
        invariant i <= |clients| && Found(i, nonce, name, best, res)
      {
        best, res := Consider(i, nonce, name, best, res);
        i := i + 1;
      }
      assert Ids(clients)[..i] == Ids(clients);
      FindingsAre(View(), nonce, name);
      if best != null {
        IdsConcat([best], res);
        res := [best] + res;
      }
    }

    // ---------------------------------------------------------------- finishing a login

    method LoginDone(c: Client)
      requires Valid() && Knows(c)
      modifies this`clients, this`warnings, c
      ensures Valid() && View() == M.LoginDone(old(View()), c.id)
    {
      Seen(c);
      if c.state != M.Handshake {
        Disconnect(c);
      } else {
        AddClient(c);
        MarkConnected(c, true);
      }
    }

    // setState(CONNECTED), and what the last step of a login forgets.
    method MarkConnected(c: Client, forget: bool)
      requires Valid() && Knows(c)
      modifies c`state, c`replaceCandidates
      ensures Valid()
      ensures
        var me := M.At(old(View()), c.id);
        View() == M.Put(old(View()), c.id,
          me.(phase := M.Connected, candidates := if forget then None else me.candidates))
    {
      Seen(c);
      c.state := M.Connected;
      if forget {
        c.replaceCandidates := None;
      }
      OnlyChanged(c);
    }

    // c takes over the name and the game of another client.
    method CopyIdentity(c: Client, prior: Client)
      requires Valid() && Knows(c) && Knows(prior)
      modifies c`userName, c`game
      ensures Valid()
      ensures
        var s := old(View());
        View() == M.Put(s, c.id, M.At(s, c.id).(name := M.At(s, prior.id).name, game := M.At(s, prior.id).game))
    {
      Seen(c);
      Seen(prior);
      c.userName, c.game := prior.userName, prior.game;
      OnlyChanged(c);
    }

    method TakeOver(c: Client, prior: Client)
      requires Valid() && Knows(c) && Knows(prior)
      modifies this`clients, this`warnings, c, prior`timers, prior`joined
      ensures Valid() && View() == M.TakeOver(old(View()), c.id, prior.id)
    {
      CopyIdentity(c, prior);
      RemoveClient(prior);
      LoginDone(c);
    }

    method SuccessfulRelogin(c: Client, prior: Client)
      requires Valid() && Knows(c) && Knows(prior)
      modifies this`clients, this`warnings, c, prior`timers, prior`joined
      ensures Valid() && View() == M.SuccessfulRelogin(old(View()), c.id, prior.id)
    {
      RemoveClient(prior);
      AddClient(c);
      MarkConnected(c, false);
    }

    method FailedPong(c: Client)
      requires Valid() && Knows(c)
      modifies this`clients, this`warnings, all
      ensures Valid() && View() == M.FailedPong(old(View()), c.id)
    {
      Seen(c);
      assert Closed(c);
      Disconnect(c);
      if c.pendingLogin != null {
        Seen(c.pendingLogin);
        if c.pendingLogin.replaceCandidates == None {
          SuccessfulRelogin(c.pendingLogin, c);
        } else {
          TakeOver(c.pendingLogin, c);
        }
      }
    }

    // ---------------------------------------------------------------- the search for a place

    method SetName(c: Client, name: Text)
      requires Valid() && Knows(c)
      modifies c`userName
      ensures Valid() && c.userName == name
      ensures View() == M.Put(old(View()), c.id, M.At(old(View()), c.id).(name := name))
    {
      Seen(c);
      c.userName := name;
      OnlyChanged(c);
    }

    // Whether the name is registered or has a listed player.
    method IsTaken(name: Text) returns (taken: bool)
      requires Valid()
      ensures taken <==> name in M.Used(db, View())
    {
      UsedIs(db, View(), name);
      if name in db.users {
        return true;
      }
      var prior := HasClient(name);
      return prior != null;
    }

    // Tries base1, base2, ... up to a thousand of them.
    method TryNames(c: Client) returns (ghost k: nat, taken: bool)
      requires Valid() && Knows(c)
      modifies c`userName
      ensures Valid() && k == M.FreeIndex(db, old(View()), c.id)
      ensures taken <==> k > FreeName.TRIES
      ensures
        Renamed(old(View()), View(), c.id, FreeName.Numbered(old(c.userName), if taken then FreeName.TRIES else k))
    {
      Seen(c);
      var loops, baseName := 0, c.userName;
      taken := true;
      ghost var s := View();
      k := M.FreeIndex(db, s, c.id);
      NotRenamed(s, c.id);
      while taken && loops < FreeName.TRIES
        invariant loops <= FreeName.TRIES && Valid() && Renamed(s, View(), c.id, c.userName)
        invariant loops > 0 ==> c.userName == FreeName.Numbered(baseName, loops)
        invariant if taken then loops < k else loops == k
        decreases FreeName.TRIES - loops, taken
      {
        loops := loops + 1;
        taken := TryName(c, s, FreeName.Numbered(baseName, loops));
      }
    }

    // Takes a name and looks whether it was taken already.
    method TryName(c: Client, ghost s: M.Lobby, name: Text) returns (taken: bool)
      requires Valid() && Knows(c) && Renamed(s, View(), c.id, c.userName)
      modifies c`userName
      ensures Valid() && Renamed(s, View(), c.id, c.userName) && c.userName == name
      ensures taken <==> Taken(db, s, c.id, name)
    {
      Tried(db, s, View(), c.id, c.userName, name);
      SetName(c, name);
      taken := IsTaken(name);
    }

    method FindUnconnectedName(c: Client)
      requires Valid() && Knows(c)
      modifies this`clients, this`warnings, c
      ensures Valid() && View() == M.FindUnconnectedName(db, old(View()), c.id)
    {
      Seen(c);
      var baseName := c.userName;
      ghost var k;
      var taken;
      k, taken := TryNames(c);
      SearchEnds(db, old(View()), View(), c.id, k);
      if taken {
        Disconnect(c);
      } else {
        GiveUpRights(c, baseName);
        LoginDone(c);
      }
    }

    method GiveUpRights(c: Client, baseName: Text)
      requires Valid() && Knows(c)
      modifies c`nonce, c`permissions
      ensures Valid()
      ensures
        var me := M.At(old(View()), c.id);
        View() == M.Put(old(View()), c.id, me.(nonce := NonceFor(db, me, baseName), perm := M.Unregistered))
    {
      Seen(c);
      if c.protocolVersion >= M.BUILD20 && (c.permissions == M.Registered || c.permissions == M.Superuser) {
        c.nonce := M.DowngradedNonce(db, baseName, c.userName);
      }
      c.permissions := M.Unregistered;
      OnlyChanged(c);
    }

    method PopCandidate(c: Client) returns (prior: Client)
      requires Valid() && Knows(c) && c.replaceCandidates.Some? && c.replaceCandidates.value != []
      modifies c`replaceCandidates
      ensures Valid() && Knows(prior) && c.replaceCandidates == Some(old(c.replaceCandidates.value)[1..])
      ensures
        var me := M.At(old(View()), c.id);
        var cs := M.CandidatesOf(me);
        cs != [] && cs[0] == prior.id && View() == M.Put(old(View()), c.id, me.(candidates := Some(cs[1..])))
    {
      Seen(c);
      assert Closed(c);
      var cs := c.replaceCandidates.value;
      prior := cs[0];
      assert Ids(cs[1..]) == Ids(cs)[1..];
      c.replaceCandidates := Some(cs[1..]);
      OnlyChanged(c);
    }

    // Permissions do not go with another name than the client's own.
    method DropRights(c: Client, prior: Client)
      requires Valid() && Knows(c) && Knows(prior)
      modifies c`nonce, c`permissions
      ensures Valid()
      ensures
        var s := old(View());
        View() == M.Put(s, c.id, M.Downgrade(db, M.At(s, c.id), M.At(s, prior.id).name))
    {
      Seen(c);
      Seen(prior);
      if prior.userName != c.userName && c.permissions != M.Unregistered {
        c.nonce := M.DowngradedNonce(db, c.userName, prior.userName);
        c.permissions := M.Unregistered;
      }
      OnlyChanged(c);
    }

    // Takes the first candidate off the list, and gives up permissions that go with another name.
    method NextCandidate(c: Client) returns (prior: Client)
      requires Valid() && Knows(c) && c.replaceCandidates.Some? && c.replaceCandidates.value != []
      modifies c`replaceCandidates, c`nonce, c`permissions
      ensures Valid() && Knows(prior) && c.replaceCandidates == Some(old(c.replaceCandidates.value)[1..])
      ensures
        var s, me := old(View()), M.At(old(View()), c.id);
        var cs := M.CandidatesOf(me);
        && cs != [] && cs[0] == prior.id
        && View() == M.Put(s, c.id, M.Downgrade(db, me, M.At(s, prior.id).name).(candidates := Some(cs[1..])))
    {
      Seen(c);
      prior := PopCandidate(c);
      DropRights(c, prior);
      PutAgain(old(View()), c.id);
    }

    // A fast ping to prior; c waits for the answer.
    method Probe(c: Client, prior: Client)
      requires Valid() && Knows(c) && Knows(prior)
      modifies c`probes, prior`pendingLogin
      ensures Valid() && View() == M.Probe(old(View()), c.id, prior.id)
    {
      ProbeIs(View(), c.id, prior.id);
      CountProbe(c);
      Await(prior, c);
    }

    ghost method CountProbe(c: Client)
      requires Valid() && Knows(c)
      modifies c`probes
      ensures Valid() && View() == Probed(old(View()), c.id)
    {
      Seen(c);
      c.probes := c.probes + 1;
      OnlyChanged(c);
    }

    method Await(prior: Client, c: Client)
      requires Valid() && Knows(prior) && Knows(c)
      modifies prior`pendingLogin
      ensures Valid() && View() == Awaiting(old(View()), prior.id, c.id)
    {
      Seen(prior);
      prior.pendingLogin := c;
      OnlyChanged(prior);
    }

    method CheckCandidates(c: Client)
      requires Valid() && Knows(c)
      modifies this`clients, this`warnings, all
      ensures Valid() && View() == M.CheckCandidates(db, old(View()), c.id)
      decreases if c.replaceCandidates.Some? then |c.replaceCandidates.value| else 0
    {
      Seen(c);
      if c.state != M.Handshake {
        Disconnect(c);
      } else if c.replaceCandidates == None || |c.replaceCandidates.value| == 0 {
        FindUnconnectedName(c);
      } else {
        var prior := NextCandidate(c);
        Seen(prior);
        if prior.pendingLogin != null {
          CheckCandidates(c);
        } else if prior.state == M.Gone {
          TakeOver(c, prior);
        } else {
          Probe(c, prior);
        }
      }
    }

    // ---------------------------------------------------------------- commands

    method SetCandidates(c: Client, cs: seq<Client>)
      requires Valid() && Knows(c) && forall d :: d in cs ==> Knows(d)
      modifies c`replaceCandidates, c`quota, c`probes
      ensures Valid()
      ensures
        var me := M.At(old(View()), c.id);
        View() == M.Put(old(View()), c.id, me.(candidates := Some(Ids(cs)), quota := |cs|, probes := 0))
    {
      Seen(c);
      c.replaceCandidates := Some(cs);
      c.quota, c.probes := |cs|, 0;
      OnlyChanged(c);
    }

    method MayKeepName(name: Text, registered: bool) returns (may: bool)
      requires Valid()
      ensures may <==> LobbyScans.MayKeepName(db, View(), name, registered)
    {
      var player := HasClient(name);
      if player == null && (registered || name !in db.users) {
        return true;
      }
      var ircUser := HasIRCClient(name);
      return player == ircUser && registered;
    }

    method EnterAlone(c: Client, registered: bool)
      requires Valid() && Knows(c)
      modifies this`clients, this`warnings, c
      ensures Valid() && View() == LobbyScans.EnterAlone(db, old(View()), c.id, registered)
    {
      Seen(c);
      var may := MayKeepName(c.userName, registered);
      if may {
        LoginDone(c);
      } else {
        FindUnconnectedName(c);
      }
    }

    method FindReplaceCandidates(c: Client, registered: bool)
      requires Valid() && Knows(c)
      modifies this`clients, this`warnings, all
      ensures Valid() && View() == M.FindReplaceCandidates(db, old(View()), c.id, registered)
    {
      Seen(c);
      var cs := FindClientsToReplace(c.nonce, c.userName);
      ReplacingOrAlone(db, View(), c.id, registered, Ids(cs));
      SetCandidates(c, cs);
      if |cs| == 0 {
        EnterAlone(c, registered);
      } else {
        CheckCandidates(c);
      }
    }

    method ReadLogin(c: Client, cmd: M.Command)
      requires Valid() && Knows(c) && cmd.Login?
      modifies c`protocolVersion, c`userName, c`buildId, c`nonce, c`attempt
      ensures Valid() && c.userName == cmd.name
      ensures View() == M.Put(old(View()), c.id, AfterLogin(M.At(old(View()), c.id), cmd))
    {
      Seen(c);
      c.ReadLogin(cmd);
      OnlyChanged(c);
    }

    method SetPermissions(c: Client, permissions: M.Perm)
      requires Valid() && Knows(c)
      modifies c`permissions
      ensures Valid()
      ensures View() == M.Put(old(View()), c.id, M.At(old(View()), c.id).(perm := permissions))
    {
      Seen(c);
      c.permissions := permissions;
      OnlyChanged(c);
    }

    // Sends a challenge and keeps the response to expect.
    method SendChallenge(c: Client, challenge: Option<Text>)
      requires Valid() && Knows(c)
      modifies c`expectedResponse, c`state, c`attempt
      ensures Valid() && View() == ChallengeSent(db, old(View()), c.id, challenge)
    {
      Seen(c);
      if challenge == None {
        c.expectedResponse, c.state := [], M.Gone;
      } else {
        c.expectedResponse :=
          if c.userName in db.users then db.sha(challenge.value + db.users[c.userName].password) else [];
        c.attempt := M.NotYet;
      }
      OnlyChanged(c);
    }

    method HandleLogin(c: Client, cmd: M.Command)
      requires Valid() && Knows(c) && cmd.Login?
      modifies this`clients, this`warnings, all
      ensures Valid() && View() == M.HandleLogin(db, old(View()), c.id, cmd)
    {
      Seen(c);
      LoginIs(db, View(), c.id, cmd);
      if c.state == M.Connected {
        Disconnect(c);
        return;
      }
      ReadLogin(c, cmd);
      var hasNonce := cmd.registered || cmd.version >= M.BUILD20;
      if !M.Supported(cmd.version) || (hasNonce && cmd.nonce == None) || cmd.banned ||
        (cmd.registered && cmd.name !in db.users) {
        Disconnect(c);
      } else {
        ProceedLogin(c, cmd);
      }
    }

    // A login whose packet is in order and whose name is registered if it should be.
    method ProceedLogin(c: Client, cmd: M.Command)
      requires Valid() && Knows(c) && cmd.Login? && (cmd.registered ==> c.userName in db.users)
      modifies this`clients, this`warnings, all
      ensures Valid() && View() == LoginGoesOn(db, old(View()), c.id, cmd)
    {
      Seen(c);
      if !cmd.registered {
        FindReplaceCandidates(c, false);
      } else if cmd.version >= M.BUILD20 {
        SendChallenge(c, cmd.challenge);
      } else if !M.PasswordCorrect(db, c.userName, c.nonce) {
        Disconnect(c);
      } else {
        SetPermissions(c, M.Permissions(db, c.userName));
        FindReplaceCandidates(c, true);
      }
    }

    method HandleCheckPassword(c: Client, cmd: M.Command)
      requires Valid() && Knows(c) && cmd.CheckPassword?
      modifies c
      ensures Valid() && View() == M.HandleCheckPassword(db, old(View()), c.id, cmd)
    {
      Seen(c);
      CheckPasswordIs(db, View(), c.id, cmd);
      if c.state == M.Connected {
        Disconnect(c);
        return;
      }
      ReadCheckPassword(c, cmd);
      if cmd.version < M.BUILD21 || cmd.name !in db.users {
        Disconnect(c);
      } else {
        SendChallenge(c, cmd.challenge);
        AwaitPassword(c);
      }
    }

    method ReadCheckPassword(c: Client, cmd: M.Command)
      requires Valid() && Knows(c) && cmd.CheckPassword?
      modifies c`protocolVersion, c`userName, c`buildId
      ensures Valid()
      ensures
        var me := M.At(old(View()), c.id);
        View() == M.Put(old(View()), c.id, me.(version := cmd.version, name := cmd.name, build := cmd.build))
    {
      Seen(c);
      c.protocolVersion, c.userName, c.buildId := cmd.version, cmd.name, cmd.build;
      assert c.Record() == old(c.Record()).(version := cmd.version, name := cmd.name, build := cmd.build);
      OnlyChanged(c);
    }

    method AwaitPassword(c: Client)
      requires Valid() && Knows(c)
      modifies c`state, c`attempt
      ensures Valid()
      ensures View() == M.Put(old(View()), c.id, M.At(old(View()), c.id).(phase := M.CheckPwd, attempt := M.NotYet))
    {
      Seen(c);
      c.state, c.attempt := M.CheckPwd, M.NotYet;
      OnlyChanged(c);
    }

    // LOGIN or CHECK_PWD that cannot be unpacked: what was stored before the error stays.
    method HandleMalformed(c: Client, cmd: M.Command)
      requires Valid() && Knows(c) && cmd.Malformed?
      modifies c`protocolVersion, c`userName, c`buildId, c`state
      ensures Valid() && View() == M.HandleMalformed(old(View()), c.id, cmd)
    {
      Seen(c);
      if c.state != M.Connected {
        c.ReadPart(cmd);
        OnlyChanged(c);
      }
      Disconnect(c);
    }

    method HandlePassword(c: Client, response: Text)
      requires Valid() && Knows(c)
      modifies this`clients, this`warnings, all
      ensures Valid() && View() == M.HandlePassword(db, old(View()), c.id, response)
    {
      Seen(c);
      if c.expectedResponse != response {
        Disconnect(c);
      } else if c.state == M.Handshake {
        AcceptPassword(c);
        FindReplaceCandidates(c, true);
      } else if c.state == M.CheckPwd {
        c.state, c.attempt := M.Handshake, M.NotYet;
        OnlyChanged(c);
      } else {
        Disconnect(c);
      }
    }

    method AcceptPassword(c: Client)
      requires Valid() && Knows(c)
      modifies c`permissions, c`nonce, c`attempt
      ensures Valid()
      ensures
        var me := M.At(old(View()), c.id);
        View() == M.Put(old(View()), c.id,
          me.(perm := M.Permissions(db, me.name), nonce := M.DowngradedNonce(db, me.name, me.name),
            attempt := M.ByLogin))
    {
      Seen(c);
      c.permissions := M.Permissions(db, c.userName);
      c.nonce := M.DowngradedNonce(db, c.userName, c.userName);
      c.attempt := M.ByLogin;
      assert c.Record() == old(c.Record()).(perm := c.permissions, nonce := c.nonce, attempt := M.ByLogin);
      OnlyChanged(c);
    }

    // Legacy relogin: who knows all about a player takes its place, once it is known to be gone.
    method HandleRelogin(c: Client, cmd: M.Command)
      requires Valid() && Knows(c) && cmd.Relogin?
      modifies this`clients, this`warnings, all
      ensures Valid() && View() == M.HandleRelogin(db, old(View()), c.id, cmd)
    {
      Seen(c);
      ReloginIs(db, View(), c.id, cmd);
      var needsNonce := cmd.registered || cmd.version >= M.BUILD20;
      if c.state != M.Handshake || (needsNonce && cmd.nonce == None) || cmd.banned {
        Disconnect(c);
        return;
      }
      var nonce := if needsNonce && cmd.nonce.Some? then cmd.nonce.value else [];
      var prior := HasClient(cmd.name);
      if prior == null {
        Disconnect(c);
        return;
      }
      Seen(prior);
      if cmd.version != prior.protocolVersion || cmd.build != prior.buildId || nonce != prior.nonce {
        Disconnect(c);
      } else {
        ReplaceOrWait(c, prior);
      }
    }

    method ReplaceOrWait(c: Client, prior: Client)
      requires Valid() && Knows(c) && Knows(prior)
      modifies this`clients, this`warnings, all
      ensures Valid() && View() == ReloginGoesOn(old(View()), c.id, prior.id)
    {
      Seen(prior);
      var gone := prior.state == M.Gone;
      Impersonate(c, prior);
      if gone {
        SuccessfulRelogin(c, prior);
      } else {
        Await(prior, c);
      }
    }

    method Impersonate(c: Client, prior: Client)
      requires Valid() && Knows(c) && Knows(prior)
      modifies c`protocolVersion, c`permissions, c`userName, c`buildId, c`game, c`nonce, c`attempt
      ensures Valid() && View() == Impersonated(old(View()), c.id, prior.id)
    {
      ImpersonatedInParts(View(), c.id, prior.id);
      CopyRights(c, prior);
      CopyIdentity(c, prior);
    }

    method CopyRights(c: Client, prior: Client)
      requires Valid() && Knows(c) && Knows(prior)
      modifies c`protocolVersion, c`permissions, c`buildId, c`nonce, c`attempt
      ensures Valid() && View() == WithRightsOf(old(View()), c.id, prior.id)
    {
      Seen(c);
      Seen(prior);
      c.SetRights(prior.protocolVersion, prior.permissions, prior.buildId, prior.nonce);
      OnlyChanged(c);
    }

    // ---------------------------------------------------------------- announcements and leaving

    method SetGame(c: Client, game: Option<Text>)
      requires Valid() && Knows(c)
      modifies c`game
      ensures Valid() && View() == M.Put(old(View()), c.id, M.At(old(View()), c.id).(game := game))
    {
      Seen(c);
      c.game := game;
      OnlyChanged(c);
    }

    method Leave(c: Client)
      requires Valid() && Knows(c)
      modifies this`clients, this`warnings, c
      ensures Valid()
      ensures
        var s := old(View());
        View() == M.RemoveClient(M.Disconnect(M.Put(s, c.id, M.At(s, c.id).(game := None)), c.id), c.id)
    {
      SetGame(c, None);
      Disconnect(c);
      RemoveClient(c);
    }

    method SetAnnounced(c: Client, announced: bool)
      requires Valid() && Knows(c)
      modifies c`wasAnnounced
      ensures Valid() && View() == M.Put(old(View()), c.id, M.At(old(View()), c.id).(announced := announced))
    {
      Seen(c);
      c.wasAnnounced := announced;
      OnlyChanged(c);
    }

    ghost method Note(n: M.Notice)
      requires Valid()
      modifies this`notices
      ensures Valid() && View() == old(View()).(notices := old(View()).notices + [n])
    {
      notices := notices + [n];
    }

    method AnnounceNow(c: Client)
      requires Valid() && Knows(c)
      modifies this`notices, c`wasAnnounced
      ensures Valid() && View() == M.AnnounceNow(old(View()), c.id)
    {
      Seen(c);
      var here := HasClientObject(c);
      if c.wasAnnounced && !here {
        Note(M.HasLeft(c.id));
        SetAnnounced(c, false);
      } else if !c.wasAnnounced && here {
        Note(M.HasJoined(c.id));
        SetAnnounced(c, true);
      }
    }

    // A delayed announcement fires.
    method Announce(c: Client)
      requires Valid() && Knows(c) && c.timers > 0
      modifies this`notices, c`wasAnnounced, c`timers
      ensures Valid() && View() == M.Step(db, old(View()), M.Announce(c.id))
    {
      Seen(c);
      AnnounceIs(db, View(), c.id);
      CountDown(c);
      AnnounceNow(c);
    }

    ghost method CountDown(c: Client)
      requires Valid() && Knows(c) && c.timers > 0
      modifies c`timers
      ensures Valid() && M.At(old(View()), c.id).timers > 0
      ensures View() == M.Put(old(View()), c.id, M.At(old(View()), c.id).(timers := M.At(old(View()), c.id).timers - 1))
    {
      Seen(c);
      c.timers := c.timers - 1;
      OnlyChanged(c);
    }

    // ---------------------------------------------------------------- newcomers

    // All that is new is c.
    twostate lemma OnlyAdded(new c: Client)
      requires old(Valid()) && all == old(all) + [c] && clients == old(clients)
      requires notices == old(notices) && warnings == old(warnings)
      requires c.id == |old(all)| && c.pendingLogin == null && c.replaceCandidates == None
      requires forall i :: 0 <= i < |old(all)| ==> unchanged(old(all[i]))
      ensures Valid() && View() == old(View()).(conns := old(View()).conns + [c.Record()])
    {
      forall i | 0 <= i < |all|
        ensures all[i].id == i && Closed(all[i]) && (i < |old(all)| ==> all[i].Record() == old(all[i].Record()))
      {
        if i < |old(all)| { assert old(Closed(all[i])) && unchanged(all[i]); }
      }
      assert Records(all) == old(Records(all)) + [c.Record()];
    }

    method Connect(ip: Text) returns (c: Client)
      requires Valid()
      modifies this`all
      ensures Valid() && Knows(c) && c.ip == ip && View() == M.Step(db, old(View()), M.Connect)
    {
      c := new Client(|all|, ip);
      all := all + [c];
      OnlyAdded(c);
    }

    method IrcJoin(nick: Text)
      requires Valid()
      modifies this`all, this`clients
      ensures Valid() && View() == M.Step(db, old(View()), M.IrcJoin(nick))
    {
      IrcJoinIs(db, View(), nick);
      var known := HasIRCClient(nick);
      if known == null {
        AddIrc(nick);
      }
    }

    method AddIrc(nick: Text)
      requires Valid()
      modifies this`all, this`clients
      ensures Valid() && View() == WithIrc(old(View()), nick)
    {
      var c := AllocateIrc(nick);
      AddClient(c);
    }

    method AllocateIrc(nick: Text) returns (c: Client)
      requires Valid()
      modifies this`all
      ensures Valid() && Knows(c) && c.id == |old(all)| && fresh(c)
      ensures View() == old(View()).(conns := old(View()).conns + [IrcRecord(nick)])
    {
      c := new Client.Irc(|all|, nick);
      all := all + [c];
      OnlyAdded(c);
    }

    // ---------------------------------------------------------------- removal

    method IrcLeave(nick: Text)
      requires Valid()
      modifies this`clients, this`warnings, all
      ensures Valid() && View() == M.Step(db, old(View()), M.IrcLeave(nick))
    {
      var c := HasIRCClient(nick);
      if c != null {
        RemoveClient(c);
      }
    }

    // The player a "kick" or "ban" by c is about, if c may give that order and the player is there and
    // not an administrator itself.
    ghost predicate MayRemove(c: Client, name: Text)
      reads this, all, c
    {
      var s := View();
      && c.permissions == M.Superuser
      && M.HasClient(s, name).Some? && M.At(s, M.HasClient(s, name).value).perm != M.Superuser
    }

    ghost function AddressOf(name: Text): Text
      reads this, all
    {
      var found := M.HasClient(View(), name);
      if found.Some? && found.value < |all| then all[found.value].ip else []
    }

    // CMD kick and CMD ban on a player: its address is banned for five minutes or for a day, and it is
    // disconnected and unlisted. Only administrators give orders, and none is removed by one.
    method HandleRemovalCmd(c: Client, name: Text, ban: bool, bans: BanList, now: int)
      requires Valid() && Knows(c) && bans.Valid()
      modifies this`clients, this`warnings, all, bans
      ensures Valid() && bans.Valid()
      ensures View() == if old(MayRemove(c, name)) then M.Step(db, old(View()), M.Kick(name)) else old(View())
      ensures
        bans.history == old(bans.history) +
          if !old(MayRemove(c, name)) then []
          else [if ban then Bans.Ban(old(AddressOf(name)), now) else Bans.Kick(old(AddressOf(name)), now)]
    {
      var player := FindRemovable(c, name);
      KickIs(db, View(), name);
      if player != null {
        Punish(bans, player.ip, ban, now);
        Expel(player);
      }
    }

    method Punish(bans: BanList, ip: Text, ban: bool, now: int)
      requires Valid() && bans.Valid()
      modifies bans
      ensures Valid() && View() == old(View()) && bans.Valid()
      ensures bans.history == old(bans.history) + [if ban then Bans.Ban(ip, now) else Bans.Kick(ip, now)]
    {
      if ban {
        bans.AddBanned(ip, now);
      } else {
        bans.AddKicked(ip, now);
      }
    }

    method FindRemovable(c: Client, name: Text) returns (player: Client?)
      requires Valid() && Knows(c)
      ensures player != null <==> MayRemove(c, name)
      ensures player != null ==>
        IdOf(player) == M.HasClient(View(), name) && Knows(player) && player.ip == AddressOf(name)
      ensures player != null ==> player.permissions != M.Superuser && M.At(View(), player.id) == player.Record()
    {
      if c.permissions != M.Superuser {
        return null;
      }
      player := HasClient(name);
      if player != null {
        Seen(player);
        if player.permissions == M.Superuser {
          player := null;
        }
      }
    }

    method Expel(c: Client)
      requires Valid() && Knows(c)
      modifies this`clients, this`warnings, c
      ensures Valid() && View() == M.RemoveClient(M.Disconnect(old(View()), c.id), c.id)
    {
      Disconnect(c);
      RemoveClient(c);
    }

    // Some time after the connection has ended the client is forgotten, unless its name is another's.
    method Forget(c: Client)
      requires Valid() && Knows(c)
      modifies this`clients, this`warnings, c
      ensures Valid() && View() == M.Step(db, old(View()), M.Forget(c.id))
    {
      Seen(c);
      var found := HasClient(c.userName);
      if found != null && found.id == c.id { Injective(found, c); }
      if found == c {
        SetGame(c, None);
        RemoveClient(c);
      }
    }

    // The loop at the end of the server: everybody is disconnected and nobody stays listed.
    method Shutdown()
      requires Valid()
      modifies this`clients, all`state
      ensures Valid() && clients == []
      ensures forall c :: c in all ==> c.state == if c in old(clients) then M.Gone else old(c.state)
    {
      while |clients| > 0
        invariant Valid() && all == old(all) && forall c :: c in clients ==> c in old(clients)
        invariant forall c :: c in old(clients) ==> c in clients || c.state == M.Gone
        invariant forall c :: c in all && c !in old(clients) ==> c.state == old(c.state)
        decreases |clients|
      {
        var front := clients[0];
        assert front in clients && Knows(front);
        DisconnectFront(front);
      }
    }

    method DisconnectFront(c: Client)
      requires Valid() && |clients| > 0 && clients[0] == c
      modifies this`clients, c`state
      ensures Valid() && clients == old(clients)[1..] && c.state == M.Gone
    {
      Disconnect(c);
      Remove(0);
    }

    // ---------------------------------------------------------------- a packet arrives

    // Whoever waits for c is told that c is alive.
    method Answer(c: Client)
      requires Valid() && Knows(c)
      modifies this`clients, this`warnings, all
      ensures Valid() && View() == M.Answer(db, old(View()), c.id)
    {
      Seen(c);
      if c.pendingLogin != null {
        assert Closed(c);
        Seen(c.pendingLogin);
        LookElsewhere(c.pendingLogin);
        ClearPending(c);
      }
    }

    method LookElsewhere(p: Client)
      requires Valid() && Knows(p)
      modifies this`clients, this`warnings, all
      ensures Valid()
      ensures
        var s := old(View());
        View() == if M.At(s, p.id).candidates == None then M.Disconnect(s, p.id) else M.CheckCandidates(db, s, p.id)
    {
      Seen(p);
      if p.replaceCandidates == None {
        Disconnect(p);
      } else {
        CheckCandidates(p);
      }
    }

    method ClearPending(c: Client)
      requires Valid() && Knows(c)
      modifies c`pendingLogin
      ensures Valid() && View() == M.Put(old(View()), c.id, M.At(old(View()), c.id).(pending := None))
    {
      Seen(c);
      c.pendingLogin := null;
      OnlyChanged(c);
    }

    method Handle(c: Client, cmd: M.Command)
      requires Valid() && Knows(c)
      modifies this`clients, this`warnings, this`notices, all
      ensures Valid() && View() == M.Handle(db, old(View()), c.id, cmd)
    {
      Seen(c);
      match cmd {
        case Login(_, _, _, _, _, _, _) => HandleLogin(c, cmd);
        case Malformed(_, _, _) => HandleMalformed(c, cmd);
        case CheckPassword(_, _, _, _) => HandleCheckPassword(c, cmd);
        case Password(response) => HandlePassword(c, response);
        case Relogin(_, _, _, _, _, _) => HandleRelogin(c, cmd);
        case Leave => Leave(c);
        case Pong =>
        case Chat => if !c.wasAnnounced { AnnounceNow(c); }
        case EnterGame(game) => SetGame(c, game);
        case Garbage => Disconnect(c);
      }
    }

    // A packet is dealt with: first for whoever waits for its sender, then for the sender. The step
    // taken is the model's; possible and clean, it keeps the invariant of every valid run.
    method Packet(c: Client, cmd: M.Command)
      requires Valid() && Knows(c)
      modifies this`clients, this`warnings, this`notices, all
      ensures Valid() && View() == M.Step(db, old(View()), M.Packet(c.id, cmd))
      ensures KeptBy(db, old(View()), M.Packet(c.id, cmd), View())
    {
      ghost var s := View();
      Seen(c);
      Answer(c);
      Handle(c, cmd);
      KeptIfClean(db, s, M.Packet(c.id, cmd));
    }

    // Nothing more can be read: a connection that was closed on this side is done with.
    method StreamEnded(c: Client)
      requires Valid() && Knows(c)
      modifies this`clients, this`warnings, all
      ensures Valid() && View() == M.Step(db, old(View()), M.StreamEnded(c.id))
      ensures KeptBy(db, old(View()), M.StreamEnded(c.id), View())
    {
      Seen(c);
      KeptIfClean(db, View(), M.StreamEnded(c.id));
      if c.state != M.Gone {
        FailedPong(c);
      }
    }

    // The ping timer goes off and there has been no answer to the last ping.
    method PingUnanswered(c: Client)
      requires Valid() && Knows(c)
      modifies this`clients, this`warnings, all
      ensures Valid() && View() == M.Step(db, old(View()), M.PingUnanswered(c.id))
      ensures KeptBy(db, old(View()), M.PingUnanswered(c.id), View())
    {
      KeptIfClean(db, View(), M.PingUnanswered(c.id));
      FailedPong(c);
    }
  }
}
