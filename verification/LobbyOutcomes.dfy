/** How attempts to log in end (wlms/client.go): who is let in under which name, with which rights and in whose
    place, and who is sent away. Stated of the client list, not of the searches through it. */
module LobbyOutcomes {
  import opened GoText
  import opened LobbyModel
  import opened LobbyInvariant
  import opened LobbySteps
  import LobbyTheorems
  import LobbyScans
  import LobbyProofs
  import FreeName

  // ---------------------------------------------------------------- what is seen of the list

  // A listed player with the name.
  ghost predicate Bears(s: Lobby, x: Ref, name: Text) {
    x in s.listed && At(s, x).perm != Irc && At(s, x).name == name
  }

  ghost predicate Borne(s: Lobby, name: Text) {
    exists x :: Bears(s, x, name)
  }

  // Nobody may be given the name.
  ghost predicate NameTaken(db: Db, s: Lobby, name: Text) {
    name in db.users || Borne(s, name)
  }

  // A listed client with the nonce, for whose answer nobody waits.
  ghost predicate Matching(s: Lobby, x: Ref, nonce: Text) {
    x in s.listed && At(s, x).pending == None && At(s, x).nonce == nonce
  }

  ghost predicate Matched(s: Lobby, nonce: Text) {
    exists x :: Matching(s, x, nonce)
  }

  // Best is who has the name, then who is disconnected, then anybody.
  function Rank(c: Client, name: Text): nat {
    if c.name == name then 0 else if c.phase == Gone then 1 else 2
  }

  // The i-th of the list comes before the j-th: of the live ones the first in the list is preferred, of the
  // others the last.
  ghost predicate Before(s: Lobby, name: Text, i: nat, j: nat)
    requires i < |s.listed| && j < |s.listed|
  {
    var a, b := Rank(At(s, s.listed[i]), name), Rank(At(s, s.listed[j]), name);
    a < b || (a == b && if a == 2 then i <= j else j <= i)
  }

  // The i-th of the list is the one to be replaced.
  ghost predicate Preferred(s: Lobby, name: Text, nonce: Text, i: nat) {
    && i < |s.listed| && Matching(s, s.listed[i], nonce)
    && forall j :: 0 <= j < |s.listed| && Matching(s, s.listed[j], nonce) ==> Before(s, name, i, j)
  }

  lemma {:induction false} BestIsLast(s: Lobby, listed: seq<Ref>, nonce: Text, name: Text) returns (i: nat)
    requires Best(s, listed, nonce, name).Some?
    ensures i < |listed| && Best(s, listed, nonce, name) == Some(listed[i])
    ensures forall j :: i < j < |listed| ==> !(Same(At(s, listed[j]), nonce) && At(s, listed[j]).name == name)
  {
    if Best(s, listed[1..], nonce, name).Some? {
      var k := BestIsLast(s, listed[1..], nonce, name);
      i := k + 1;
      forall j | i < j < |listed| ensures !(Same(At(s, listed[j]), nonce) && At(s, listed[j]).name == name) {
        assert listed[1..][j - 1] == listed[j];
      }
    } else {
      i := 0;
      BestIs(s, listed[1..], nonce, name);
      forall j | i < j < |listed| ensures !(Same(At(s, listed[j]), nonce) && At(s, listed[j]).name == name) {
        assert listed[1..][j - 1] == listed[j] && listed[j] in listed[1..];
      }
    }
  }

  lemma {:induction false} OfflineIsLast(s: Lobby, listed: seq<Ref>, nonce: Text, name: Text) returns (i: nat)
    requires Offline(s, listed, nonce, name) != []
    ensures i < |listed| && Offline(s, listed, nonce, name)[0] == listed[i]
    ensures forall j :: i < j < |listed| && Same(At(s, listed[j]), nonce) ==>
      At(s, listed[j]).name == name || At(s, listed[j]).phase != Gone
  {
    var rest := Offline(s, listed[1..], nonce, name);
    OfflineIs(s, listed[1..], nonce, name);
    if rest != [] {
      var k := OfflineIsLast(s, listed[1..], nonce, name);
      i := k + 1;
      forall j | i < j < |listed| && Same(At(s, listed[j]), nonce)
        ensures At(s, listed[j]).name == name || At(s, listed[j]).phase != Gone
      {
        assert listed[1..][j - 1] == listed[j];
      }
    } else {
      i := 0;
      forall j | i < j < |listed| && Same(At(s, listed[j]), nonce)
        ensures At(s, listed[j]).name == name || At(s, listed[j]).phase != Gone
      {
        assert listed[1..][j - 1] == listed[j] && listed[j] in listed[1..];
      }
    }
  }

  lemma {:induction false} OnlineIsFirst(s: Lobby, listed: seq<Ref>, nonce: Text, name: Text) returns (i: nat)
    requires Online(s, listed, nonce, name) != []
    ensures i < |listed| && Online(s, listed, nonce, name)[0] == listed[i]
    ensures forall j :: 0 <= j < i && Same(At(s, listed[j]), nonce) ==>
      At(s, listed[j]).name == name || At(s, listed[j]).phase == Gone
  {
    var c := At(s, listed[0]);
    if Same(c, nonce) && c.name != name && c.phase != Gone {
      i := 0;
    } else {
      var k := OnlineIsFirst(s, listed[1..], nonce, name);
      i := k + 1;
      forall j | 0 <= j < i && Same(At(s, listed[j]), nonce)
        ensures At(s, listed[j]).name == name || At(s, listed[j]).phase == Gone
      {
        if j > 0 { assert listed[1..][j - 1] == listed[j]; }
      }
    }
  }

  // The search for somebody to replace comes up with the preferred one first, if there is anybody.
  lemma {:induction false} SearchPrefers(s: Lobby, name: Text, nonce: Text) returns (i: nat)
    requires FindClientsToReplace(s, nonce, name) != []
    ensures Preferred(s, name, nonce, i) && FindClientsToReplace(s, nonce, name)[0] == s.listed[i]
  {
    var best, off, on :=
      Best(s, s.listed, nonce, name), Offline(s, s.listed, nonce, name), Online(s, s.listed, nonce, name);
    BestIs(s, s.listed, nonce, name);
    OfflineIs(s, s.listed, nonce, name);
    OnlineIs(s, s.listed, nonce, name);
    if best.Some? {
      i := BestIsLast(s, s.listed, nonce, name);
    } else if off != [] {
      i := OfflineIsLast(s, s.listed, nonce, name);
      assert off[0] in off;
    } else {
      i := OnlineIsFirst(s, s.listed, nonce, name);
      assert on[0] in on;
    }
    forall j | 0 <= j < |s.listed| && Matching(s, s.listed[j], nonce) ensures Before(s, name, i, j) {
      var y := s.listed[j];
      assert Same(At(s, y), nonce);
      if best == None && off == [] { assert y !in off; }
    }
  }

  lemma SearchIsEmpty(s: Lobby, name: Text, nonce: Text)
    ensures FindClientsToReplace(s, nonce, name) == [] <==> !Matched(s, nonce)
  {
    CandidatesAreListed(s, nonce, name);
    var cs := FindClientsToReplace(s, nonce, name);
    if cs != [] {
      assert cs[0] in cs;
      assert Matching(s, cs[0], nonce);
    } else {
      BestIs(s, s.listed, nonce, name);
      OfflineIs(s, s.listed, nonce, name);
      OnlineIs(s, s.listed, nonce, name);
      forall x ensures !Matching(s, x, nonce) {
        assert x in s.listed && Same(At(s, x), nonce) && At(s, x).name != name ==>
          x in Offline(s, s.listed, nonce, name) || x in Online(s, s.listed, nonce, name);
      }
    }
  }

  // ---------------------------------------------------------------- how an attempt ends

  ghost predicate OthersAlike(s: Lobby, t: Lobby, r: Ref) {
    |t.conns| == |s.conns| && forall y :: y != r ==> At(t, y) == At(s, y)
  }

  // r is disconnected, and nothing else has changed.
  ghost predicate SentAway(s: Lobby, t: Lobby, r: Ref) {
    t.listed == s.listed && OthersAlike(s, t, r) && At(t, r).phase == Gone && !At(t, r).joined
  }

  // r is let in, and nothing else has changed.
  ghost predicate Enters(s: Lobby, t: Lobby, r: Ref, name: Text, perm: Perm, nonce: Text) {
    && t.listed == s.listed + [r] && OthersAlike(s, t, r) && At(t, r).phase == Connected
    && At(t, r).name == name && At(t, r).perm == perm && At(t, r).nonce == nonce
  }

  // The nonce of somebody with rights who gets another name.
  function NonceUnder(db: Db, base: Text, name: Text): Text {
    if base in db.users then db.sha(name + db.users[base].password) else Ascii("unregistered")
  }

  // r is let in, without rights, under the first number that is free; or, when a thousand are taken, not at all.
  ghost predicate EntersNumbered(db: Db, s: Lobby, t: Lobby, r: Ref, me: Client) {
    || (exists k :: 1 <= k <= 1000 && EntersAsNumber(db, s, t, r, me, k))
    || (SentAway(s, t, r) && forall j :: 1 <= j <= 1000 ==> NameTaken(db, s, FreeName.Numbered(me.name, j)))
  }

  ghost predicate EntersAsNumber(db: Db, s: Lobby, t: Lobby, r: Ref, me: Client, k: nat) {
    var name := FreeName.Numbered(me.name, k);
    var renewed := me.version >= 5 && (me.perm == Registered || me.perm == Superuser);
    && !NameTaken(db, s, name) && (forall j :: 1 <= j < k ==> NameTaken(db, s, FreeName.Numbered(me.name, j)))
    && Enters(s, t, r, name, Unregistered, if renewed then NonceUnder(db, me.name, name) else me.nonce)
  }

  // r, as me, meets prior, which it might replace: a disconnected one makes way at once, and leaves its name
  // and its game; the answer of any other is waited for. Rights do not go with another name.
  ghost predicate Meets(db: Db, s: Lobby, t: Lobby, r: Ref, me: Client, prior: Ref) {
    var him := At(s, prior);
    var perm := if him.name == me.name then me.perm else Unregistered;
    var nonce :=
      if him.name != me.name && me.perm != Unregistered then NonceUnder(db, me.name, him.name) else me.nonce;
    && At(t, r).perm == perm && At(t, r).nonce == nonce
    && if him.phase == Gone
       then
         && (forall y :: y in t.listed <==> (y in s.listed && y != prior) || y == r)
         && At(t, r).phase == Connected && At(t, r).name == him.name && At(t, r).game == him.game
         && (forall y :: y != r && y != prior ==> At(t, y) == At(s, y))
       else
         && t.listed == s.listed && At(t, r).phase == Handshake && At(t, r).name == me.name
         && At(t, prior) == him.(pending := Some(r))
         && (forall y :: y != r && y != prior ==> At(t, y) == At(s, y))
  }

  // How the login of r ends, when it has got as far as me.
  ghost predicate LoginEnds(db: Db, s: Lobby, t: Lobby, r: Ref, me: Client, registered: bool) {
    if me.phase != Handshake then t.listed == s.listed && At(t, r).phase == Gone
    else if Matched(s, me.nonce)
    then exists i: nat :: Preferred(s, me.name, me.nonce, i) && Meets(db, s, t, r, me, s.listed[i])
    else if Borne(s, me.name) || (!registered && me.name in db.users) then EntersNumbered(db, s, t, r, me)
    else Enters(s, t, r, me.name, me.perm, me.nonce)
  }

  // r has not been let in, and is about to make its attempt as me.
  ghost predicate Attempting(s: Lobby, r: Ref, me: Client) {
    && r < |s.conns| && r !in s.listed && !me.joined && me.perm != Irc && me.phase != Connected
    && ListedOk(s)
  }

  lemma LookupFinds(s: Lobby, name: Text)
    ensures HasClient(s, name) == None <==> !Borne(s, name)
  {
    LookupIs(s, s.listed, name, false);
    if HasClient(s, name).Some? { assert Bears(s, HasClient(s, name).value, name); }
  }

  lemma UsedNames(db: Db, s: Lobby, name: Text)
    ensures name in Used(db, s) <==> NameTaken(db, s, name)
  {
    LobbyScans.UsedIs(db, s, name);
    LookupFinds(s, name);
  }

  // The list looks the same to everybody else whatever r, which is not on it, turns into.
  lemma {:induction false} SearchAlike(s: Lobby, t: Lobby, r: Ref, nonce: Text, name: Text)
    requires t.listed == s.listed && r !in s.listed && OthersAlike(s, t, r)
    ensures forall i: nat :: Preferred(s, name, nonce, i) <==> Preferred(t, name, nonce, i)
    ensures Matched(s, nonce) <==> Matched(t, nonce)
    ensures forall n :: Borne(s, n) <==> Borne(t, n)
  {
    forall x ensures Matching(s, x, nonce) <==> Matching(t, x, nonce) {}
    forall x, n ensures Bears(s, x, n) <==> Bears(t, x, n) {}
    forall i: nat ensures Preferred(s, name, nonce, i) <==> Preferred(t, name, nonce, i) {
      PreferredAlike(s, t, name, nonce, i);
      PreferredAlike(t, s, name, nonce, i);
    }
  }

  lemma PreferredAlike(s: Lobby, t: Lobby, name: Text, nonce: Text, i: nat)
    requires t.listed == s.listed && forall x :: x in s.listed ==> At(t, x) == At(s, x)
    ensures Preferred(s, name, nonce, i) ==> Preferred(t, name, nonce, i)
  {
    if Preferred(s, name, nonce, i) {
      forall j | 0 <= j < |t.listed| && Matching(t, t.listed[j], nonce) ensures Before(t, name, i, j) {
        assert Matching(s, s.listed[j], nonce);
        assert Before(s, name, i, j);
      }
    }
  }

  lemma EntersAlone(s: Lobby, r: Ref, me: Client)
    requires Attempting(s, r, me) && me.phase == Handshake
    ensures Enters(s, LoginDone(Put(s, r, me), r), r, me.name, me.perm, me.nonce)
  {
  }

  lemma {:induction false} NumberedEnds(db: Db, s: Lobby, r: Ref, me: Client)
    requires Attempting(s, r, me) && me.phase == Handshake
    ensures EntersNumbered(db, s, FindUnconnectedName(db, Put(s, r, me), r), r, me)
  {
    var k := FreeIndex(db, Put(s, r, me), r);
    NamesAlike(db, s, r, me);
    if k <= 1000 { NumberEnds(db, s, r, me, k); } else { NumbersRunOut(db, s, r, me); }
  }

  lemma {:induction false} NumbersRunOut(db: Db, s: Lobby, r: Ref, me: Client)
    requires Attempting(s, r, me) && FreeIndex(db, Put(s, r, me), r) > 1000
    requires forall j: nat :: FreeName.Numbered(me.name, j) in Used(db, Put(s, r, me)) <==>
      NameTaken(db, s, FreeName.Numbered(me.name, j))
    ensures SentAway(s, FindUnconnectedName(db, Put(s, r, me), r), r)
    ensures forall j :: 1 <= j <= 1000 ==> NameTaken(db, s, FreeName.Numbered(me.name, j))
  {
    GivesUp(db, s, r, me);
    AllUsed(Used(db, Put(s, r, me)), me.name, FreeIndex(db, Put(s, r, me), r));
  }

  lemma AllUsed(used: set<Text>, base: Text, k: nat)
    requires k == FreeName.FirstFree(used, base, 1) && k > 1000
    ensures forall j :: 1 <= j <= 1000 ==> FreeName.Numbered(base, j) in used
  {
  }

  lemma GivesUp(db: Db, s: Lobby, r: Ref, me: Client)
    requires Attempting(s, r, me) && FreeIndex(db, Put(s, r, me), r) > 1000
    ensures SentAway(s, FindUnconnectedName(db, Put(s, r, me), r), r)
  {
    var u, name := Put(s, r, me), FreeName.Numbered(me.name, FreeName.TRIES);
    LobbyScans.SearchEnds(db, u, Put(u, r, me.(name := name)), r, FreeIndex(db, u, r));
    LastTry(s, r, me, name);
  }

  lemma LastTry(s: Lobby, r: Ref, me: Client, name: Text)
    requires Attempting(s, r, me)
    ensures SentAway(s, Disconnect(Put(Put(s, r, me), r, me.(name := name)), r), r)
  {
  }

  lemma NamesAlike(db: Db, s: Lobby, r: Ref, me: Client)
    requires Attempting(s, r, me)
    ensures forall j: nat :: FreeName.Numbered(me.name, j) in Used(db, Put(s, r, me)) <==>
      NameTaken(db, s, FreeName.Numbered(me.name, j))
  {
    var u := Put(s, r, me);
    SearchAlike(s, u, r, [], []);
    forall j: nat
      ensures FreeName.Numbered(me.name, j) in Used(db, u) <==> NameTaken(db, s, FreeName.Numbered(me.name, j))
    {
      UsedNames(db, u, FreeName.Numbered(me.name, j));
    }
  }

  lemma {:induction false} NumberEnds(db: Db, s: Lobby, r: Ref, me: Client, k: nat)
    requires Attempting(s, r, me) && me.phase == Handshake
    requires k == FreeIndex(db, Put(s, r, me), r) && 1 <= k <= 1000
    requires forall j: nat :: FreeName.Numbered(me.name, j) in Used(db, Put(s, r, me)) <==>
      NameTaken(db, s, FreeName.Numbered(me.name, j))
    ensures EntersAsNumber(db, s, FindUnconnectedName(db, Put(s, r, me), r), r, me, k)
  {
    var name := FreeName.Numbered(me.name, k);
    var renewed := me.version >= 5 && (me.perm == Registered || me.perm == Superuser);
    var nonce := if renewed then NonceUnder(db, me.name, name) else me.nonce;
    EntersAlone(s, r, me.(name := name, nonce := nonce, perm := Unregistered));
    assert Put(Put(s, r, me), r, me.(name := name, nonce := nonce, perm := Unregistered))
      == Put(s, r, me.(name := name, nonce := nonce, perm := Unregistered));
  }

  lemma {:induction false} MeetsFirst(db: Db, s: Lobby, r: Ref, me: Client, prior: Ref)
    requires Attempting(s, r, me) && me.phase == Handshake && prior in s.listed && At(s, prior).pending == None
    requires CandidatesOf(me) != [] && CandidatesOf(me)[0] == prior
    ensures Meets(db, s, CheckCandidates(db, Put(s, r, me), r), r, me, prior)
  {
    var him := At(s, prior);
    var c := Downgrade(db, me, him.name).(candidates := Some(CandidatesOf(me)[1..]));
    var u := Put(s, r, c);
    assert Put(Put(s, r, me), r, c) == u;
    if him.phase == Gone {
      assert CheckCandidates(db, Put(s, r, me), r) == TakeOver(u, r, prior);
      PlaceTaken(s, r, c, prior);
      TakesPlace(s, r, c, prior);
    } else {
      assert CheckCandidates(db, Put(s, r, me), r) == Probe(u, r, prior);
      Awaits(s, r, c, prior);
    }
  }

  lemma PlaceTaken(s: Lobby, r: Ref, c: Client, prior: Ref)
    requires Attempting(s, r, c) && c.phase == Handshake && prior in s.listed
    ensures forall y :: y in TakeOver(Put(s, r, c), r, prior).listed <==> (y in s.listed && y != prior) || y == r
  {
    var u := Put(s, r, c);
    assert ListedOk(u) && prior < |u.conns|;
    LobbyTheorems.ListAfterReplacement(u, r, prior);
  }

  lemma Awaits(s: Lobby, r: Ref, c: Client, prior: Ref)
    requires Attempting(s, r, c) && prior in s.listed
    ensures
      var t := Probe(Put(s, r, c), r, prior);
      && t.listed == s.listed && At(t, r) == c.(probes := c.probes + 1)
      && At(t, prior) == At(s, prior).(pending := Some(r))
      && forall y :: y != r && y != prior ==> At(t, y) == At(s, y)
  {
  }

  // What is taken over with somebody's place.
  lemma TakesPlace(s: Lobby, r: Ref, c: Client, prior: Ref)
    requires Attempting(s, r, c) && c.phase == Handshake && prior in s.listed
    ensures
      var t := TakeOver(Put(s, r, c), r, prior);
      && At(t, r).perm == c.perm && At(t, r).nonce == c.nonce && At(t, r).phase == Connected
      && At(t, r).name == At(s, prior).name && At(t, r).game == At(s, prior).game
      && forall y :: y != r && y != prior ==> At(t, y) == At(s, y)
  {
  }

  lemma {:induction false} LoginEndsSo(db: Db, s: Lobby, r: Ref, me: Client, registered: bool)
    requires Attempting(s, r, me)
    ensures LoginEnds(db, s, FindReplaceCandidates(db, Put(s, r, me), r, registered), r, me, registered)
  {
    var u := Put(s, r, me);
    var cs := FindClientsToReplace(u, me.nonce, me.name);
    var c := me.(candidates := Some(cs), quota := |cs|, probes := 0);
    assert Put(u, r, c) == Put(s, r, c);
    SearchAlike(s, u, r, me.nonce, me.name);
    SearchAlike(s, Put(s, r, c), r, me.nonce, me.name);
    SearchIsEmpty(u, me.name, me.nonce);
    LookupFinds(Put(s, r, c), me.name);
    LoginEndsWith(db, s, r, me, registered, c, cs);
  }

  lemma {:induction false} LoginEndsWith(
    db: Db, s: Lobby, r: Ref, me: Client, registered: bool, c: Client, cs: seq<Ref>)
    requires Attempting(s, r, me) && c == me.(candidates := Some(cs), quota := |cs|, probes := 0)
    requires cs == FindClientsToReplace(Put(s, r, me), me.nonce, me.name) && (cs == [] <==> !Matched(s, me.nonce))
    requires HasClient(Put(s, r, c), me.name) == None <==> !Borne(s, me.name)
    requires forall i: nat :: Preferred(s, me.name, me.nonce, i) <==> Preferred(Put(s, r, me), me.name, me.nonce, i)
    requires Put(Put(s, r, me), r, c) == Put(s, r, c)
    ensures LoginEnds(db, s, FindReplaceCandidates(db, Put(s, r, me), r, registered), r, me, registered)
  {
    if me.phase != Handshake {
      NotInHandshake(db, s, r, c);
    } else if cs != [] {
      var i := SearchPrefers(Put(s, r, me), me.name, me.nonce);
      MeetsFirst(db, s, r, c, s.listed[i]);
      assert Meets(db, s, CheckCandidates(db, Put(s, r, c), r), r, me, s.listed[i]);
    } else {
      IrcNamesake(Put(s, r, c), me.name);
      EntersAlone(s, r, c);
      NumberedEnds(db, s, r, c);
      AsIfBefore(db, s, FindUnconnectedName(db, Put(s, r, c), r), r, c, me);
    }
  }

  lemma AsIfBefore(db: Db, s: Lobby, t: Lobby, r: Ref, c: Client, me: Client)
    requires EntersNumbered(db, s, t, r, c)
    requires c.name == me.name && c.version == me.version && c.perm == me.perm && c.nonce == me.nonce
    ensures EntersNumbered(db, s, t, r, me)
  {
    if !SentAway(s, t, r) || !(forall j :: 1 <= j <= 1000 ==> NameTaken(db, s, FreeName.Numbered(c.name, j))) {
      var k :| 1 <= k <= 1000 && EntersAsNumber(db, s, t, r, c, k);
      assert EntersAsNumber(db, s, t, r, me, k);
    }
  }

  // No player is an IRC user.
  lemma IrcNamesake(s: Lobby, name: Text)
    ensures HasClient(s, name) == HasIrcClient(s, name) ==> HasClient(s, name) == None
  {
    LookupIs(s, s.listed, name, false);
    LookupIs(s, s.listed, name, true);
  }

  // Whoever is not in the handshake is not let in by any way a login can end.
  lemma NotInHandshake(db: Db, s: Lobby, r: Ref, c: Client)
    requires Attempting(s, r, c) && c.phase != Handshake
    ensures
      var u := Put(s, r, c);
      && (var t := LoginDone(u, r); t.listed == s.listed && At(t, r).phase == Gone)
      && (var t := CheckCandidates(db, u, r); t.listed == s.listed && At(t, r).phase == Gone)
      && (var t := FindUnconnectedName(db, u, r); t.listed == s.listed && At(t, r).phase == Gone)
  {
    NoNumberHelps(db, Put(s, r, c), r);
  }

  lemma NoNumberHelps(db: Db, u: Lobby, r: Ref)
    requires r < |u.conns| && u.conns[r].phase != Handshake
    ensures var t := FindUnconnectedName(db, u, r); t.listed == u.listed && At(t, r).phase == Gone
  {
    var me, k := u.conns[r], FreeIndex(db, u, r);
    var name := FreeName.Numbered(me.name, if k > FreeName.TRIES then FreeName.TRIES else k);
    LobbyScans.SearchEnds(db, u, Put(u, r, me.(name := name)), r, k);
  }

  // ---------------------------------------------------------------- LOGIN

  // The nonce a LOGIN is made with: the client's old one, when the packet need not bring any.
  function NonceOf(me: Client, cmd: Command): Option<Text>
    requires cmd.Login?
  {
    if cmd.registered || cmd.version >= 5 then cmd.nonce else Some(me.nonce)
  }

  // What a LOGIN must bring: a version that is spoken, a nonce, an address that is not banned; and of somebody
  // who claims to be registered a name that is, and with version 0 its password.
  ghost predicate Acceptable(db: Db, me: Client, cmd: Command)
    requires cmd.Login?
  {
    && (cmd.version == 0 || cmd.version == 5 || cmd.version == 6) && NonceOf(me, cmd).Some? && !cmd.banned
    && (cmd.registered ==>
          && cmd.name in db.users
          && (cmd.version == 0 ==> db.users[cmd.name].password == db.sha(NonceOf(me, cmd).value))
          && (cmd.version >= 5 ==> cmd.challenge.Some?))
  }

  // The client a LOGIN makes of me, before anybody is searched for.
  function Presented(me: Client, cmd: Command, perm: Perm, nonce: Text): Client
    requires cmd.Login?
  {
    me.(version := cmd.version, name := cmd.name, build := cmd.build, nonce := nonce, perm := perm, attempt := ByLogin)
  }

  // In every possible run, a LOGIN of a client that has not logged in yet ends its connection if it is not
  // acceptable. Otherwise a registered user of version 5 or 6 is challenged and nothing else changes. A
  // registered user of version 0 goes on with the rights of the database, anybody else without rights: whoever
  // has the same nonce is replaced or asked first; without one, the name is kept exactly if no listed player
  // bears it and, for a guest, it is not registered; and otherwise it gets the first number that is free.
  lemma {:induction false} LoginIsDecided(db: Db, es: seq<Event>, r: Ref, cmd: Command)
    requires
      var s := Run(db, es);
      && cmd.Login? && GoodDb(db) && PossibleRun(db, es) && Possible(s, Packet(r, cmd))
      && s.conns[r].phase != Connected
    ensures
      var s, t := Run(db, es), Step(db, Run(db, es), Packet(r, cmd));
      LoginDecided(db, s, t, r, cmd)
  {
    PossibleRunKeeps(db, es);
    var s := Run(db, es);
    ReadyToLogin(db, s, r);
    assert Step(db, s, Packet(r, cmd)) == HandleLogin(db, s, r, cmd);
    HandledSo(db, s, r, cmd);
  }

  // With nobody to replace, whoever is let in keeps the name it asked for exactly if no listed player bears it
  // and, for a guest, it is not registered.
  lemma {:induction false} NameIsKeptIff(db: Db, es: seq<Event>, r: Ref, cmd: Command)
    requires
      var s := Run(db, es);
      && cmd.Login? && GoodDb(db) && PossibleRun(db, es) && Possible(s, Packet(r, cmd))
      && s.conns[r].phase == Handshake && Acceptable(db, s.conns[r], cmd) && !(cmd.registered && cmd.version >= 5)
      && !Matched(s, NonceOf(s.conns[r], cmd).value)
    ensures
      var s, t := Run(db, es), Step(db, Run(db, es), Packet(r, cmd));
      r in t.listed ==>
        (At(t, r).name == cmd.name <==> !Borne(s, cmd.name) && (cmd.registered || cmd.name !in db.users))
  {
    LoginIsDecided(db, es, r, cmd);
    var s, t := Run(db, es), Step(db, Run(db, es), Packet(r, cmd));
    PossibleRunKeeps(db, es);
    ReadyToLogin(db, s, r);
    var perm := if cmd.registered then db.users[cmd.name].perm else Unregistered;
    var me := Presented(s.conns[r], cmd, perm, NonceOf(s.conns[r], cmd).value);
    if EntersNumbered(db, s, t, r, me) && r in t.listed {
      var k :| 1 <= k <= 1000 && EntersAsNumber(db, s, t, r, me, k);
      assert |FreeName.Numbered(me.name, k)| > |me.name|;
    }
  }

  ghost predicate LoginDecided(db: Db, s: Lobby, t: Lobby, r: Ref, cmd: Command)
    requires cmd.Login? && r < |s.conns|
  {
    var me := s.conns[r];
    if !Acceptable(db, me, cmd) then SentAway(s, t, r)
    else if cmd.registered && cmd.version >= 5 then
      && t.listed == s.listed && OthersAlike(s, t, r)
      && t.conns[r] == Presented(me, cmd, Unregistered, NonceOf(me, cmd).value)
           .(attempt := NotYet, expected := db.sha(cmd.challenge.value + db.users[cmd.name].password))
    else
      var perm := if cmd.registered then db.users[cmd.name].perm else Unregistered;
      LoginEnds(db, s, t, r, Presented(me, cmd, perm, NonceOf(me, cmd).value), cmd.registered)
  }

  lemma {:induction false} ReadyToLogin(db: Db, s: Lobby, r: Ref)
    requires Inv(db, s, None, false) && r < |s.conns| && s.conns[r].phase != Connected && s.conns[r].phase != Gone
    requires s.conns[r].perm != Irc && s.conns[r].attempt == NotYet
    ensures Attempting(s, r, s.conns[r]) && s.conns[r].perm == Unregistered && s.conns[r].pending == None
  {
    assert RecordOk(db, s.conns[r]);
  }

  lemma {:induction false} HandledSo(db: Db, s: Lobby, r: Ref, cmd: Command)
    requires GoodDb(db) && cmd.Login? && r < |s.conns| && Attempting(s, r, s.conns[r])
    requires s.conns[r].perm == Unregistered
    ensures LoginDecided(db, s, HandleLogin(db, s, r, cmd), r, cmd)
  {
    var me := s.conns[r];
    LobbyScans.LoginIs(db, s, r, cmd);
    if Acceptable(db, me, cmd) && !(cmd.registered && cmd.version >= 5) {
      var perm := if cmd.registered then db.users[cmd.name].perm else Unregistered;
      var c := Presented(me, cmd, perm, NonceOf(me, cmd).value);
      assert LobbyScans.AfterLogin(me, cmd).(perm := perm) == c;
      LobbyScans.PutAgain(s, r);
      LoginEndsSo(db, s, r, c, cmd.registered);
    } else if !Acceptable(db, me, cmd) {
      Rejected(db, s, r, cmd);
    }
  }

  lemma {:induction false} Rejected(db: Db, s: Lobby, r: Ref, cmd: Command)
    requires cmd.Login? && r < |s.conns| && Attempting(s, r, s.conns[r]) && !Acceptable(db, s.conns[r], cmd)
    ensures SentAway(s, HandleLogin(db, s, r, cmd), r)
  {
    LobbyScans.LoginIs(db, s, r, cmd);
  }

  // ---------------------------------------------------------------- the right answer

  // In every possible run, the right answer to the challenge of a LOGIN gives the rights of the database, and
  // the name is kept exactly if no listed player bears it, once nobody has the same nonce.
  lemma {:induction false} RightAnswerLogsIn(db: Db, es: seq<Event>, r: Ref)
    requires
      var s, a := Run(db, es), LobbyProofs.LastAsked(db, es, r);
      && GoodDb(db) && PossibleRun(db, es) && Possible(s, Packet(r, Password(a.answer)))
      && s.conns[r].phase != Connected && !a.checking
    ensures
      var s, a := Run(db, es), LobbyProofs.LastAsked(db, es, r);
      var t := Step(db, s, Packet(r, Password(a.answer)));
      var perm := if a.name in db.users then db.users[a.name].perm else Unregistered;
      LoginEnds(db, s, t, r,
        s.conns[r].(perm := perm, nonce := NonceUnder(db, a.name, a.name), attempt := ByLogin), true)
  {
    var s, a := Run(db, es), LobbyProofs.LastAsked(db, es, r);
    PossibleRunKeeps(db, es);
    ReadyToLogin(db, s, r);
    LobbyProofs.AnswersAreChecked(db, es, r, a.answer);
    var perm := if a.name in db.users then db.users[a.name].perm else Unregistered;
    LoginEndsSo(db, s, r, s.conns[r].(perm := perm, nonce := NonceUnder(db, a.name, a.name), attempt := ByLogin), true);
  }

  // ---------------------------------------------------------------- CHECK_PWD

  // In every possible run, a CHECK_PWD of a client that has not logged in yet lets nobody in. It is refused
  // below version 6 and for names that are not registered; otherwise the client is challenged.
  lemma {:induction false} CheckIsDecided(db: Db, es: seq<Event>, r: Ref, cmd: Command)
    requires
      var s := Run(db, es);
      && cmd.CheckPassword? && GoodDb(db) && PossibleRun(db, es) && Possible(s, Packet(r, cmd))
      && s.conns[r].phase != Connected
    ensures
      var s, t := Run(db, es), Step(db, Run(db, es), Packet(r, cmd));
      && t.listed == s.listed && OthersAlike(s, t, r) && At(t, r).perm == Unregistered
      && if cmd.version < 6 || cmd.name !in db.users then At(t, r).phase == Gone
         else
           && At(t, r).phase == CheckPwd && At(t, r).name == cmd.name
           && At(t, r).expected == LobbyProofs.Digest(db, cmd.name, cmd.challenge)
  {
    PossibleRunKeeps(db, es);
    var s := Run(db, es);
    ReadyToLogin(db, s, r);
    assert Step(db, s, Packet(r, cmd)) == HandleCheckPassword(db, s, r, cmd);
    LobbyScans.CheckPasswordIs(db, s, r, cmd);
  }
}
