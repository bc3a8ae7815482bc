/** What holds of the lobby in every valid run. */
module LobbyTheorems {
  import opened GoText
  import opened LobbyModel
  import opened LobbyInvariant
  import opened LobbySteps
  import FreeName

  // In every valid run no two listed players, and no two listed IRC users, share a name.
  lemma {:induction false} NamesAreUnique(db: Db, es: seq<Event>)
    requires GoodDb(db) && ValidRun(db, es)
    ensures
      var s := Run(db, es);
      && (forall i, j :: 0 <= i < j < |s.listed| ==> s.listed[i] != s.listed[j])
      && (forall x, y :: x in s.listed && y in s.listed && x != y && At(s, x).name == At(s, y).name ==>
            (At(s, x).perm == Irc) != (At(s, y).perm == Irc))
  {
    RunKeeps(db, es);
  }

  // In every possible run a listed player with the rights of a registered user or of an administrator
  // has exactly the rights the database grants for the name it bears, however it came by that name.
  lemma {:induction false} RightsComeFromTheDatabase(db: Db, es: seq<Event>, x: Ref)
    requires GoodDb(db) && PossibleRun(db, es) && x in Run(db, es).listed
    ensures
      var c := At(Run(db, es), x);
      c.perm == Registered || c.perm == Superuser ==> c.name in db.users && c.perm == db.users[c.name].perm
  {
    PossibleRunKeeps(db, es);
    var s := Run(db, es);
    assert s.conns[x].joined && RecordOk(db, s.conns[x]);
  }

  // In every possible run a login attempt waits for at most one listed client at a time and is not listed
  // itself. It has a candidate list exactly if it is a LOGIN; otherwise it is a legacy RELOGIN under the
  // very name of the client it waits for.
  lemma {:induction false} OneProbeAtATime(db: Db, es: seq<Event>, x: Ref, p: Ref)
    requires GoodDb(db) && PossibleRun(db, es)
    requires x in Run(db, es).listed && At(Run(db, es), x).pending == Some(p)
    ensures
      var s := Run(db, es);
      && p < |s.conns| && p !in s.listed && s.conns[p].attempt != NotYet
      && (forall y :: y in s.listed && At(s, y).pending == Some(p) ==> y == x)
      && (s.conns[p].attempt == ByLogin <==> s.conns[p].candidates.Some?)
      && (s.conns[p].attempt == ByRelogin ==> s.conns[p].name == At(s, x).name)
  {
    PossibleRunKeeps(db, es);
    OneProbeOf(db, Run(db, es), x, p);
  }

  lemma {:induction false} OneProbeOf(db: Db, s: Lobby, x: Ref, p: Ref)
    requires Inv(db, s, None, false) && x in s.listed && At(s, x).pending == Some(p)
    ensures
      && p < |s.conns| && p !in s.listed && s.conns[p].attempt != NotYet
      && (forall y :: y in s.listed && At(s, y).pending == Some(p) ==> y == x)
      && (s.conns[p].attempt == ByLogin <==> s.conns[p].candidates.Some?)
      && (s.conns[p].attempt == ByRelogin ==> s.conns[p].name == At(s, x).name)
  {
    assert x < |s.conns| && Accounted(s, None, x);
    assert Link(s, None, x, p);
    assert Waits(db, s, x, p, false);
    forall y | y in s.listed && At(s, y).pending == Some(p) ensures y == x {
      assert y < |s.conns| && Accounted(s, None, y);
      assert Link(s, None, y, p);
    }
  }

  // In every possible run every attempt has waited for at most as many clients as its search found,
  // counting those still on its list.
  lemma {:induction false} ProbesAreBounded(db: Db, es: seq<Event>, p: Ref)
    requires GoodDb(db) && PossibleRun(db, es) && p < |Run(db, es).conns|
    ensures var c := Run(db, es).conns[p]; c.probes + |CandidatesOf(c)| <= c.quota
  {
    PossibleRunKeeps(db, es);
    assert RecordOk(db, Run(db, es).conns[p]);
  }

  lemma LoginDoneEnds(s: Lobby, c: Ref)
    requires c < |s.conns|
    ensures var t := LoginDone(s, c); |t.conns| == |s.conns| && t.conns[c].phase in {Connected, Gone}
  {
  }

  lemma TakeOverEnds(s: Lobby, c: Ref, prior: Ref)
    requires c < |s.conns|
    ensures var t := TakeOver(s, c, prior); |t.conns| == |s.conns| && t.conns[c].phase in {Connected, Gone}
  {
    LoginDoneEnds(TakeName(s, c, prior), c);
  }

  lemma FindUnconnectedEnds(db: Db, s: Lobby, c: Ref)
    requires c < |s.conns|
    ensures var t := FindUnconnectedName(db, s, c); |t.conns| == |s.conns| && t.conns[c].phase in {Connected, Gone}
  {
  }

  lemma {:induction false} CheckShortens(db: Db, s: Lobby, c: Ref)
    requires c < |s.conns| && s.conns[c].phase == Handshake && c !in CandidatesOf(s.conns[c])
    ensures
      var t := CheckCandidates(db, s, c);
      && |t.conns| == |s.conns|
      && (t.conns[c].phase in {Connected, Gone} || |CandidatesOf(t.conns[c])| < |CandidatesOf(s.conns[c])|)
    decreases |CandidatesOf(At(s, c))|
  {
    var cs := CandidatesOf(s.conns[c]);
    if cs == [] {
      FindUnconnectedEnds(db, s, c);
    } else {
      var t := Put(s, c, Downgrade(db, s.conns[c], At(s, cs[0]).name).(candidates := Some(cs[1..])));
      if At(t, cs[0]).pending.Some? {
        CheckShortens(db, t, c);
      } else if At(t, cs[0]).phase == Gone {
        TakeOverEnds(t, c, cs[0]);
      }
    }
  }

  // What a connected client says changes nobody else.
  lemma HandleLeavesOthers(db: Db, t: Lobby, x: Ref, cmd: Command, p: Ref)
    requires x < |t.conns| && t.conns[x].phase == Connected && p != x
    ensures At(Handle(db, t, x, cmd), p) == At(t, p) && |Handle(db, t, x, cmd).conns| == |t.conns|
  {
    if IsAttempt(cmd) {
      ConnectedIsRefused(db, t, x, cmd);
    }
  }

  // In every possible run, when a client answers a probe, whoever waits for it either is done (it is
  // connected, or gone) or moves on with strictly fewer candidates.
  lemma {:induction false} AnswerShortensTheSearch(db: Db, es: seq<Event>, x: Ref, cmd: Command, p: Ref)
    requires
      var s := Run(db, es);
      && GoodDb(db) && PossibleRun(db, es) && Possible(s, Packet(x, cmd))
      && s.conns[x].pending == Some(p) && At(s, p).phase == Handshake
    ensures
      var s, t := Run(db, es), Step(db, Run(db, es), Packet(x, cmd));
      At(t, p).phase in {Connected, Gone} || |CandidatesOf(At(t, p))| < |CandidatesOf(At(s, p))|
  {
    PossibleRunKeeps(db, es);
    AnswerShortens(db, Run(db, es), x, cmd, p);
  }

  lemma {:induction false} AnswerShortens(db: Db, s: Lobby, x: Ref, cmd: Command, p: Ref)
    requires GoodDb(db) && Inv(db, s, None, false) && Possible(s, Packet(x, cmd))
    requires s.conns[x].pending == Some(p) && At(s, p).phase == Handshake
    ensures
      var t := Step(db, s, Packet(x, cmd));
      At(t, p).phase in {Connected, Gone} || |CandidatesOf(At(t, p))| < |CandidatesOf(At(s, p))|
  {
    WaiterOf(db, s, x, p, false);
    AnswerDecides(db, s, x, p);
    var t := Answer(db, s, x);
    HandleLeavesOthers(db, t, x, cmd, p);
    assert Step(db, s, Packet(x, cmd)) == Handle(db, t, x, cmd);
  }

  lemma {:induction false} AnswerDecides(db: Db, s: Lobby, x: Ref, p: Ref)
    requires x < |s.conns| && p < |s.conns| && x != p && !s.conns[p].joined
    requires s.conns[x].joined && s.conns[x].phase == Connected
    requires s.conns[x].pending == Some(p) && s.conns[p].phase == Handshake && p !in CandidatesOf(s.conns[p])
    ensures
      var t := Answer(db, s, x);
      && |t.conns| == |s.conns| && t.conns[x].phase == Connected
      && (At(t, p).phase in {Connected, Gone} || |CandidatesOf(At(t, p))| < |CandidatesOf(At(s, p))|)
  {
    if s.conns[p].candidates.Some? {
      CheckShortens(db, s, p);
      CheckCandidatesStays(db, s, p);
    }
  }

  // Whoever waits for a client that can answer.
  lemma {:induction false} WaiterOf(db: Db, s: Lobby, x: Ref, p: Ref, named: bool)
    requires Inv(db, s, None, named) && x < |s.conns| && s.conns[x].phase != Gone && s.conns[x].pending == Some(p)
    ensures p < |s.conns| && p != x && !s.conns[p].joined && s.conns[x].joined && s.conns[x].phase == Connected
    ensures Waits(db, s, x, p, named) && s.conns[x].perm != Irc && p !in CandidatesOf(s.conns[p])
    ensures AllCandidates(s, CandidatesOf(s.conns[p]), named) && p !in s.listed
  {
    assert Accounted(s, None, x);
    assert Link(s, None, x, p);
    assert Waits(db, s, x, p, named);
    assert RecordOk(db, s.conns[x]);
    var cs := CandidatesOf(s.conns[p]);
    assert AllCandidates(s, cs, named);
    forall k | 0 <= k < |cs| ensures cs[k] != p {
      assert Candidate(s, cs[k]);
    }
  }

  // In every possible run, when a client fails to answer, or its connection ends, the attempt that waits
  // for it is over: it is connected in its place, or gone.
  lemma {:induction false} SilenceEndsTheSearch(db: Db, es: seq<Event>, x: Ref, e: Event, p: Ref)
    requires
      var s := Run(db, es);
      && GoodDb(db) && PossibleRun(db, es) && (e == PingUnanswered(x) || e == StreamEnded(x)) && Possible(s, e)
      && s.conns[x].phase != Gone && s.conns[x].pending == Some(p)
    ensures At(Step(db, Run(db, es), e), p).phase in {Connected, Gone} && At(Step(db, Run(db, es), e), x).phase == Gone
  {
    PossibleRunKeeps(db, es);
    WaiterOf(db, Run(db, es), x, p, false);
    SilenceEnds(db, Run(db, es), x, e, p);
  }

  lemma SilenceEnds(db: Db, s: Lobby, x: Ref, e: Event, p: Ref)
    requires x < |s.conns| && p < |s.conns| && x != p && s.conns[x].pending == Some(p) && s.conns[x].phase != Gone
    requires e == PingUnanswered(x) || e == StreamEnded(x)
    ensures At(Step(db, s, e), p).phase in {Connected, Gone} && At(Step(db, s, e), x).phase == Gone
  {
    var t := Disconnect(s, x);
    if s.conns[p].candidates == None {
      ReloginServesBoth(t, x, p);
      assert Step(db, s, e) == SuccessfulRelogin(t, p, x);
    } else {
      TakeOverEnds(t, p, x);
      TakeOverLeavesGone(t, p, x);
      assert Step(db, s, e) == TakeOver(t, p, x);
    }
  }

  lemma ReloginServesBoth(t: Lobby, x: Ref, p: Ref)
    requires x < |t.conns| && p < |t.conns| && x != p && t.conns[x].phase == Gone
    ensures At(SuccessfulRelogin(t, p, x), p).phase == Connected && At(SuccessfulRelogin(t, p, x), x).phase == Gone
  {
  }

  lemma TakeOverLeavesGone(t: Lobby, p: Ref, x: Ref)
    requires x < |t.conns| && p < |t.conns| && x != p && t.conns[x].phase == Gone
    ensures At(TakeOver(t, p, x), x).phase == Gone
  {
  }

  // ---------------------------------------------------------------- candidates and names

  // The elements of cs come in the order they have in the list, or in reverse order.
  ghost predicate Ascending(listed: seq<Ref>, cs: seq<Ref>) {
    forall i, j, a, b ::
      0 <= i < j < |cs| && 0 <= a < |listed| && 0 <= b < |listed| && listed[a] == cs[i] && listed[b] == cs[j] ==> a < b
  }

  ghost predicate Descending(listed: seq<Ref>, cs: seq<Ref>) {
    forall i, j, a, b ::
      0 <= i < j < |cs| && 0 <= a < |listed| && 0 <= b < |listed| && listed[a] == cs[i] && listed[b] == cs[j] ==> b < a
  }

  lemma {:induction false} OnlineAscending(s: Lobby, listed: seq<Ref>, nonce: Text, name: Text)
    requires Distinct(listed)
    ensures Ascending(listed, Online(s, listed, nonce, name))
  {
    if listed != [] {
      var cs, rest, tail := Online(s, listed, nonce, name), listed[1..], Online(s, listed[1..], nonce, name);
      OnlineAscending(s, rest, nonce, name);
      OnlineIs(s, rest, nonce, name);
      forall i, j, a, b |
        0 <= i < j < |cs| && 0 <= a < |listed| && 0 <= b < |listed| && listed[a] == cs[i] && listed[b] == cs[j]
        ensures a < b
      {
        var d := |cs| - |tail|;
        assert cs[j] == tail[j - d] && cs[j] in rest;
        assert listed[0] !in rest;
        assert b > 0 && listed[b] == rest[b - 1];
        if a > 0 {
          assert listed[a] == rest[a - 1] && i >= d && cs[i] == tail[i - d];
        }
      }
    }
  }

  lemma {:induction false} OfflineDescending(s: Lobby, listed: seq<Ref>, nonce: Text, name: Text)
    requires Distinct(listed)
    ensures Descending(listed, Offline(s, listed, nonce, name))
  {
    if listed != [] {
      var cs, rest, tail := Offline(s, listed, nonce, name), listed[1..], Offline(s, listed[1..], nonce, name);
      OfflineDescending(s, rest, nonce, name);
      OfflineIs(s, rest, nonce, name);
      forall i, j, a, b |
        0 <= i < j < |cs| && 0 <= a < |listed| && 0 <= b < |listed| && listed[a] == cs[i] && listed[b] == cs[j]
        ensures b < a
      {
        assert cs[i] == tail[i] && cs[i] in rest;
        assert listed[0] !in rest;
        assert a > 0 && listed[a] == rest[a - 1];
        if b > 0 {
          assert listed[b] == rest[b - 1] && j < |tail| && cs[j] == tail[j];
        }
      }
    }
  }

  // What findings of the search look like: exactly the listed clients with the nonce for which
  // nobody waits yet, once each, in three parts: at most one with the wanted name, disconnected ones
  // of other names (the last listed first), and live ones of other names (in list order).
  ghost predicate ProperFindings(
    s: Lobby, nonce: Text, name: Text, cs: seq<Ref>, wanted: seq<Ref>, off: seq<Ref>, on: seq<Ref>) {
    && cs == wanted + off + on && |wanted| <= 1 && Distinct(cs)
    && (forall x :: x in cs <==> x in s.listed && At(s, x).pending == None && At(s, x).nonce == nonce)
    && (forall x :: x in wanted ==> At(s, x).name == name)
    && (forall x :: x in off ==> At(s, x).name != name && At(s, x).phase == Gone)
    && (forall x :: x in on ==> At(s, x).name != name && At(s, x).phase != Gone)
    && Descending(s.listed, off) && Ascending(s.listed, on)
  }

  // In every valid run, and for every nonce but that of the IRC users, the search for connections to
  // replace has proper findings.
  lemma CandidatesAreExact(db: Db, es: seq<Event>, nonce: Text, name: Text)
    requires GoodDb(db) && ValidRun(db, es) && nonce != IRC_NONCE
    ensures
      exists wanted, off, on ::
        ProperFindings(Run(db, es), nonce, name, FindClientsToReplace(Run(db, es), nonce, name), wanted, off, on)
  {
    RunKeeps(db, es);
    CandidatesOfList(db, Run(db, es), nonce, name);
  }

  lemma CandidatesOfList(db: Db, s: Lobby, nonce: Text, name: Text)
    requires Basics(db, s, true) && nonce != IRC_NONCE
    ensures
      exists wanted, off, on ::
        ProperFindings(s, nonce, name, FindClientsToReplace(s, nonce, name), wanted, off, on)
  {
    var best, off, on :=
      Best(s, s.listed, nonce, name), Offline(s, s.listed, nonce, name), Online(s, s.listed, nonce, name);
    var wanted: seq<Ref> := if best.Some? then [best.value] else [];
    BestIs(s, s.listed, nonce, name);
    OfflineIs(s, s.listed, nonce, name);
    OnlineIs(s, s.listed, nonce, name);
    FindingsDistinct(s, nonce, name);
    OfflineDescending(s, s.listed, nonce, name);
    OnlineAscending(s, s.listed, nonce, name);
    BestIsUnique(db, s, nonce, name);
    assert ProperFindings(s, nonce, name, FindClientsToReplace(s, nonce, name), wanted, off, on);
  }

  lemma BestIsUnique(db: Db, s: Lobby, nonce: Text, name: Text)
    requires Basics(db, s, true) && nonce != IRC_NONCE
    ensures forall x :: x in s.listed && Same(At(s, x), nonce) && At(s, x).name == name ==>
      Best(s, s.listed, nonce, name) == Some(x)
  {
    BestIs(s, s.listed, nonce, name);
    forall x | x in s.listed && Same(At(s, x), nonce) && At(s, x).name == name
      ensures Best(s, s.listed, nonce, name) == Some(x)
    {
      var b := Best(s, s.listed, nonce, name).value;
      assert RecordOk(db, s.conns[x]) && RecordOk(db, s.conns[b]);
    }
  }

  // Players in the list.
  function Players(s: Lobby): set<Ref> {
    set r | r in s.listed && At(s, r).perm != Irc
  }

  lemma {:induction false} ImageSize(s: Lobby, refs: set<Ref>)
    ensures |set r | r in refs :: At(s, r).name| <= |refs|
    decreases |refs|
  {
    if refs != {} {
      var x :| x in refs;
      ImageSize(s, refs - {x});
      assert (set r | r in refs :: At(s, r).name) == (set r | r in refs - {x} :: At(s, r).name) + {At(s, x).name};
    }
  }

  lemma UsedSize(db: Db, s: Lobby)
    ensures |Used(db, s)| <= |db.users| + |Players(s)|
  {
    var names := set r | r in Players(s) :: At(s, r).name;
    ImageSize(s, Players(s));
    assert Used(db, s) == db.users.Keys + names;
    assert |db.users.Keys + names| <= |db.users.Keys| + |names|;
  }

  // c has been listed, without rights, under the number k added to its base name.
  ghost predicate EntersAs(s: Lobby, t: Lobby, c: Ref, name: Text) {
    t.listed == s.listed + [c] && At(t, c).name == name && At(t, c).perm == Unregistered && At(t, c).phase == Connected
  }

  lemma EntersUnder(db: Db, s: Lobby, c: Ref, k: nat)
    requires c < |s.conns| && s.conns[c].phase == Handshake
    requires k == FreeIndex(db, s, c) && k <= FreeName.TRIES
    ensures EntersAs(s, FindUnconnectedName(db, s, c), c, FreeName.Numbered(s.conns[c].name, k))
  {
  }

  // With fewer than a thousand names registered or in use the search for a name succeeds: the
  // client is listed, without rights, under the first free number, and no smaller number was free.
  lemma FreeNameIsFound(db: Db, s: Lobby, c: Ref) returns (k: nat)
    requires c < |s.conns| && s.conns[c].phase == Handshake && c !in s.listed
    requires |db.users| + |Players(s)| < FreeName.TRIES
    ensures 1 <= k <= FreeName.TRIES && FreeName.Numbered(s.conns[c].name, k) !in Used(db, s)
    ensures forall j :: 1 <= j < k ==> FreeName.Numbered(s.conns[c].name, j) in Used(db, s)
    ensures EntersAs(s, FindUnconnectedName(db, s, c), c, FreeName.Numbered(s.conns[c].name, k))
  {
    UsedSize(db, s);
    FreeName.GivesUpOnlyWhenFull(Used(db, s), s.conns[c].name);
    k := FreeName.FirstFree(Used(db, s), s.conns[c].name, 1);
    EntersUnder(db, s, c, k);
  }

  // ---------------------------------------------------------------- stale candidates

  // The list after a replacement.
  lemma ListAfterReplacement(s: Lobby, c: Ref, prior: Ref)
    requires c < |s.conns| && prior < |s.conns| && s.conns[c].phase == Handshake && s.conns[c].perm != Irc && c != prior
    requires ListedOk(s) && c !in s.listed
    ensures
      var t := TakeOver(s, c, prior);
      && (forall x :: x in t.listed <==> (x in s.listed && x != prior) || x == c)
      && At(t, c).name == s.conns[prior].name && At(t, c).perm != Irc
      && (forall x :: x != c ==> At(t, x).name == At(s, x).name && At(t, x).perm == At(s, x).perm)
  {
    var t := TakeOver(s, c, prior);
    StrikeIs(s.listed, prior);
    assert t.listed == (if prior in s.listed then Strike(s.listed, prior) else s.listed) + [c];
  }

  // ---------------------------------------------------------------- names, exactly

  // Two listed players of one name.
  ghost predicate Clash(t: Lobby, y: Ref, p: Ref) {
    && y in t.listed && p in t.listed && y != p && At(t, y).name == At(t, p).name
    && At(t, y).perm != Irc && At(t, p).perm != Irc
  }

  lemma TakeOverClashes(s: Lobby, c: Ref, prior: Ref, y: Ref)
    requires c < |s.conns| && s.conns[c].phase == Handshake && s.conns[c].perm != Irc && prior != c
    requires prior !in s.listed && y in s.listed && y != c
    requires At(s, y).name == At(s, prior).name && At(s, y).perm != Irc
    ensures Clash(TakeOver(s, c, prior), y, c)
  {
    var t := TakeName(s, c, prior);
    assert t.listed == s.listed && At(t, y) == At(s, y) && At(t, c).name == At(s, y).name;
  }

  lemma ReloginClashes(s: Lobby, c: Ref, prior: Ref, y: Ref)
    requires c < |s.conns| && s.conns[c].perm != Irc && prior != c && s.conns[c].name == At(s, prior).name
    requires prior !in s.listed && y in s.listed && y != c
    requires At(s, y).name == At(s, prior).name && At(s, y).perm != Irc
    ensures Clash(SuccessfulRelogin(s, c, prior), y, c)
  {
  }

  lemma {:induction false} CheckClashes(db: Db, s: Lobby, c: Ref, prior: Ref, y: Ref)
    requires c < |s.conns| && s.conns[c].phase == Handshake && s.conns[c].perm != Irc
    requires c !in CandidatesOf(s.conns[c])
    requires Pick(s, CandidatesOf(s.conns[c])) == Some(prior) && At(s, prior).phase == Gone
    requires prior !in s.listed && y in s.listed && y != c
    requires At(s, y).name == At(s, prior).name && At(s, y).perm != Irc
    ensures Clash(CheckCandidates(db, s, c), y, c)
    decreases |CandidatesOf(At(s, c))|
  {
    var cs := CandidatesOf(s.conns[c]);
    var me := Downgrade(db, s.conns[c], At(s, cs[0]).name).(candidates := Some(cs[1..]));
    var t := Put(s, c, me);
    assert forall x :: x != c ==> At(t, x) == At(s, x);
    PickIsOneOf(s, cs);
    if At(t, cs[0]).pending.Some? {
      PickStable(s, c, me, cs[1..]);
      PickIsOneOf(s, cs[1..]);
      CheckClashes(db, t, c, prior, y);
    } else {
      TakeOverClashes(t, c, prior, y);
    }
  }

  // Somebody else bears the name that is about to be taken over.
  lemma NotReplaceable(s: Lobby, x: Ref) returns (y: Ref)
    requires !Replaceable(s, x)
    ensures x !in s.listed && y in s.listed && At(s, y).name == At(s, x).name && At(s, y).perm != Irc
  {
    LookupIs(s, s.listed, At(s, x).name, false);
    y := HasClient(s, At(s, x).name).value;
  }

  lemma {:induction false} DirtyFailure(db: Db, s: Lobby, x: Ref)
    requires Inv(db, s, None, true) && x < |s.conns| && !FailureIsClean(s, x) && !At(s, s.conns[x].pending.value).joined
    ensures !UniqueNames(FailedPong(s, x))
  {
    var p, t := s.conns[x].pending.value, Disconnect(s, x);
    assert Link(s, None, x, p);
    assert Waits(db, s, x, p, true);
    var y := NotReplaceable(s, x);
    assert y != p && p !in s.listed && x != p;
    if s.conns[p].candidates == None {
      ReloginClashes(t, p, x, y);
    } else {
      TakeOverClashes(t, p, x, y);
    }
  }

  lemma HandleKeepsClash(db: Db, t: Lobby, x: Ref, cmd: Command, y: Ref, p: Ref)
    requires x < |t.conns| && t.conns[x].phase == Connected && y != x && p != x && Clash(t, y, p)
    ensures Clash(Handle(db, t, x, cmd), y, p)
  {
    if IsAttempt(cmd) {
      ConnectedIsRefused(db, t, x, cmd);
    } else if cmd.Leave? {
      StrikeOthers(t.listed, x);
    }
  }

  lemma {:induction false} DirtyAnswer(db: Db, s: Lobby, x: Ref, cmd: Command)
    requires Inv(db, s, None, true) && Possible(s, Packet(x, cmd)) && !Clean(s, Packet(x, cmd))
    ensures !UniqueNames(Step(db, s, Packet(x, cmd)))
  {
    var p := s.conns[x].pending.value;
    WaiterOf(db, s, x, p, true);
    var y := AnswerClashes(db, s, x, p);
    HandleKeepsClash(db, Answer(db, s, x), x, cmd, y, p);
    assert Step(db, s, Packet(x, cmd)) == Handle(db, Answer(db, s, x), x, cmd);
  }

  lemma {:induction false} AnswerClashes(db: Db, s: Lobby, x: Ref, p: Ref) returns (y: Ref)
    requires x < |s.conns| && s.conns[x].pending == Some(p) && !AnswerIsClean(s, p) && Waits(db, s, x, p, true)
    requires p != x && !s.conns[p].joined && s.conns[x].joined && s.conns[x].phase == Connected
    requires p !in CandidatesOf(s.conns[p]) && p !in s.listed
    ensures
      var t := Answer(db, s, x);
      x < |t.conns| && t.conns[x].phase == Connected && y != x && Clash(t, y, p)
  {
    var cs := CandidatesOf(s.conns[p]);
    var prior := Pick(s, cs).value;
    PickIsOneOf(s, cs);
    y := NotReplaceable(s, prior);
    CheckClashes(db, s, p, prior, y);
    CheckCandidatesStays(db, s, p);
  }

  // After a valid run, a possible step keeps names unique exactly if it is clean: it replaces no client
  // whose name has gone to somebody else since that client left the list.
  lemma {:induction false} StepKeepsNamesIff(db: Db, es: seq<Event>, e: Event)
    requires GoodDb(db) && ValidRun(db, es) && Possible(Run(db, es), e)
    ensures UniqueNames(Step(db, Run(db, es), e)) <==> Clean(Run(db, es), e)
  {
    RunKeeps(db, es);
    UniqueIff(db, Run(db, es), e);
  }

  lemma {:induction false} UniqueIff(db: Db, s: Lobby, e: Event)
    requires GoodDb(db) && Inv(db, s, None, true) && Possible(s, e)
    ensures UniqueNames(Step(db, s, e)) <==> Clean(s, e)
  {
    if Clean(s, e) {
      StepKeeps(db, s, e, true);
    } else {
      match e
      case Packet(x, cmd) => DirtyAnswer(db, s, x, cmd);
      case StreamEnded(x) =>
        assert Accounted(s, None, x);
        DirtyFailure(db, s, x);
      case PingUnanswered(x) => DirtyFailure(db, s, x);
    }
  }

  // Names are unique after every step of the run.
  ghost predicate AlwaysUnique(db: Db, es: seq<Event>) {
    UniqueNames(Run(db, es)) && (es == [] || AlwaysUnique(db, es[..|es| - 1]))
  }

  // Of the runs that can happen, those in which names are always unique are exactly the valid ones.
  lemma {:induction false} AlwaysUniqueIffValid(db: Db, es: seq<Event>)
    requires GoodDb(db) && PossibleRun(db, es)
    ensures AlwaysUnique(db, es) <==> ValidRun(db, es)
  {
    if es != [] {
      var before, e := es[..|es| - 1], es[|es| - 1];
      AlwaysUniqueIffValid(db, before);
      if ValidRun(db, before) { StepKeepsNamesIff(db, before, e); }
    }
  }

  // ---------------------------------------------------------------- a stale candidate

  const NOBODY_REGISTERED := Db(map[], t => [])
  const ANN: Text := [1]
  const BOB: Text := [2]
  const CY: Text := [3]
  const BOB1: Text := [2, 49]
  const HERS: Text := [7]
  const OTHER: Text := [8]

  function GuestLogin(name: Text, nonce: Text): Command {
    Login(BUILD20, name, [], false, Some(nonce), false, None)
  }

  function Guest(name: Text, nonce: Text): Client {
    NEW_CLIENT.(version := BUILD20, name := name, nonce := nonce, attempt := ByLogin)
  }

  function ListedGuest(name: Text, nonce: Text): Client {
    Guest(name, nonce).(phase := Connected, joined := true, timers := 1)
  }

  const ANN_IN := ListedGuest(ANN, HERS)
  const BOB_WAITS := Guest(BOB, HERS).(candidates := Some([]), quota := 1, probes := 1)
  const BOB_IN := ListedGuest(BOB1, HERS).(quota := 1, probes := 1)
  const BOB_LEFT := BOB_IN.(phase := Gone, timers := 2)
  const CY_WAITS := Guest(CY, HERS).(candidates := Some([1]), quota := 2, probes := 1)
  const OTHER_BOB := ListedGuest(BOB1, OTHER)

  // Ann (0) and then Bob (1), who gets a number, log in from one machine, and a third time (2) the
  // machine's nonce is used: Ann is probed, Bob is next. Bob leaves, somebody else (3) logs in under
  // his name, and only then does Ann answer.
  function StaleRun(): seq<Event> {
    [Connect, Packet(0, GuestLogin(ANN, HERS)), Connect, Packet(1, GuestLogin(BOB, HERS)), Packet(0, Pong),
     Connect, Packet(2, GuestLogin(CY, HERS)), Packet(1, Leave), Connect, Packet(3, GuestLogin(BOB1, OTHER)),
     Packet(0, Pong)]
  }

  function Plain(conns: seq<Client>, listed: seq<Ref>): Lobby {
    Lobby(conns, listed, [], 0)
  }

  // An event that may happen, replaces nobody wrongly, and leads from s to t.
  ghost predicate Takes(s: Lobby, e: Event, t: Lobby) {
    Possible(s, e) && Clean(s, e) && Step(NOBODY_REGISTERED, s, e) == t
  }

  // A connection that has done nothing yet may log in.
  lemma MayLogIn(s: Lobby, r: Ref, name: Text, nonce: Text)
    requires r < |s.conns| && s.conns[r] == NEW_CLIENT && nonce != IRC_NONCE
    ensures Possible(s, Packet(r, GuestLogin(name, nonce))) && Clean(s, Packet(r, GuestLogin(name, nonce)))
    ensures
      Step(NOBODY_REGISTERED, s, Packet(r, GuestLogin(name, nonce)))
        == FindReplaceCandidates(NOBODY_REGISTERED, Put(s, r, Guest(name, nonce)), r, false)
  {
  }

  lemma AnnJoins()
    ensures Takes(Plain([NEW_CLIENT], []), Packet(0, GuestLogin(ANN, HERS)), Plain([ANN_IN], [0]))
  {
    NoncesDiffer();
    MayLogIn(Plain([NEW_CLIENT], []), 0, ANN, HERS);
    var t := Put(Plain([NEW_CLIENT], []), 0, Guest(ANN, HERS));
    assert FindClientsToReplace(t, HERS, ANN) == [];
  }

  lemma BobWaits()
    ensures
      Takes(Plain([ANN_IN, NEW_CLIENT], [0]), Packet(1, GuestLogin(BOB, HERS)),
            Plain([ANN_IN.(pending := Some(1)), BOB_WAITS], [0]))
  {
    NoncesDiffer();
    MayLogIn(Plain([ANN_IN, NEW_CLIENT], [0]), 1, BOB, HERS);
    var db, t := NOBODY_REGISTERED, Put(Plain([ANN_IN, NEW_CLIENT], [0]), 1, Guest(BOB, HERS));
    BobFindsAnn(t);
    var u := Put(t, 1, Guest(BOB, HERS).(candidates := Some([0]), quota := 1, probes := 0));
    assert FindReplaceCandidates(db, t, 1, false) == CheckCandidates(db, u, 1);
    assert CandidatesOf(At(u, 1)) == [0] && [0][1..] == [];
  }

  lemma BobFindsAnn(t: Lobby)
    requires t == Plain([ANN_IN, Guest(BOB, HERS)], [0])
    ensures FindClientsToReplace(t, HERS, BOB) == [0]
  {
    assert t.listed[1..] == [] && At(t, 0) == ANN_IN && ANN[0] != BOB[0];
    assert Best(t, t.listed, HERS, BOB) == None;
    assert Offline(t, t.listed, HERS, BOB) == [] && Online(t, t.listed, HERS, BOB) == [0];
  }

  // Bob's own name is not taken, but once he has waited he gets a new one.
  lemma BobGetsANumber()
    ensures
      Takes(Plain([ANN_IN.(pending := Some(1)), BOB_WAITS], [0]), Packet(0, Pong), Plain([ANN_IN, BOB_IN], [0, 1]))
  {
    var db, s := NOBODY_REGISTERED, Plain([ANN_IN.(pending := Some(1)), BOB_WAITS], [0]);
    BobIsNumbered(s);
    assert Pick(s, []) == None;
    assert CheckCandidates(db, s, 1) == FindUnconnectedName(db, s, 1);
    assert Answer(db, s, 0) == Put(FindUnconnectedName(db, s, 1), 0, ANN_IN);
  }

  lemma BobIsNumbered(s: Lobby)
    requires s == Plain([ANN_IN.(pending := Some(1)), BOB_WAITS], [0])
    ensures FindUnconnectedName(NOBODY_REGISTERED, s, 1) == Plain([ANN_IN.(pending := Some(1)), BOB_IN], [0, 1])
  {
    var db := NOBODY_REGISTERED;
    assert FreeName.Numbered(BOB, 1) == BOB1;
    assert forall r :: r in s.listed ==> At(s, r).name == ANN;
    assert |BOB1| != |ANN| && BOB1 !in Used(db, s);
    assert FreeIndex(db, s, 1) == 1;
  }

  lemma CyWaits()
    ensures
      Takes(Plain([ANN_IN, BOB_IN, NEW_CLIENT], [0, 1]), Packet(2, GuestLogin(CY, HERS)),
            Plain([ANN_IN.(pending := Some(2)), BOB_IN, CY_WAITS], [0, 1]))
  {
    NoncesDiffer();
    MayLogIn(Plain([ANN_IN, BOB_IN, NEW_CLIENT], [0, 1]), 2, CY, HERS);
    var db, t := NOBODY_REGISTERED, Put(Plain([ANN_IN, BOB_IN, NEW_CLIENT], [0, 1]), 2, Guest(CY, HERS));
    CyFindsBoth(t);
    var u := Put(t, 2, Guest(CY, HERS).(candidates := Some([0, 1]), quota := 2, probes := 0));
    assert FindReplaceCandidates(db, t, 2, false) == CheckCandidates(db, u, 2);
    assert CandidatesOf(At(u, 2)) == [0, 1] && [0, 1][1..] == [1];
  }

  lemma CyFindsBoth(t: Lobby)
    requires t == Plain([ANN_IN, BOB_IN, Guest(CY, HERS)], [0, 1])
    ensures FindClientsToReplace(t, HERS, CY) == [0, 1]
  {
    assert ANN[0] != CY[0] && |BOB1| != |CY|;
    assert At(t, 0) == ANN_IN && At(t, 1) == BOB_IN;
    assert t.listed[1..] == [1] && [1][1..] == [];
    assert Best(t, [1], HERS, CY) == None && Offline(t, [1], HERS, CY) == [] && Online(t, [1], HERS, CY) == [1];
    assert Best(t, t.listed, HERS, CY) == None;
    assert Offline(t, t.listed, HERS, CY) == [];
    assert Online(t, t.listed, HERS, CY) == [0, 1];
  }

  lemma BobLeaves(ann: Client)
    requires ann == ANN_IN.(pending := Some(2))
    ensures Takes(Plain([ann, BOB_IN, CY_WAITS], [0, 1]), Packet(1, Leave), Plain([ann, BOB_LEFT, CY_WAITS], [0]))
  {
    var db, s := NOBODY_REGISTERED, Plain([ann, BOB_IN, CY_WAITS], [0, 1]);
    var t := Disconnect(Put(s, 1, s.conns[1].(game := None)), 1);
    BobIsStruck(t);
    assert Step(db, s, Packet(1, Leave)) == RemoveClient(t, 1);
  }

  lemma BobIsStruck(t: Lobby)
    requires |t.conns| == 3 && t.listed == [0, 1] && t.conns[0].name == ANN && t.conns[1].name == BOB1
    requires t.conns[0].joined && t.conns[1].joined
    ensures RemoveClient(t, 1) == RemoveListed(t, 1) && Strike(t.listed, 1) == [0]
  {
    assert |BOB1| != |ANN|;
    assert At(t, 0).name != At(t, 1).name;
    NoWarning(t, 1);
    assert [0, 1][1..] == [1] && Strike([1], 1) == [1][1..] == [];
    assert Strike([0, 1], 1) == [0] + Strike([1], 1) == [0];
  }

  lemma AnotherBobJoins(ann: Client)
    requires ann == ANN_IN.(pending := Some(2))
    ensures
      Takes(Plain([ann, BOB_LEFT, CY_WAITS, NEW_CLIENT], [0]), Packet(3, GuestLogin(BOB1, OTHER)),
            Plain([ann, BOB_LEFT, CY_WAITS, OTHER_BOB], [0, 3]))
  {
    NoncesDiffer();
    MayLogIn(Plain([ann, BOB_LEFT, CY_WAITS, NEW_CLIENT], [0]), 3, BOB1, OTHER);
    var db, t := NOBODY_REGISTERED, Put(Plain([ann, BOB_LEFT, CY_WAITS, NEW_CLIENT], [0]), 3, Guest(BOB1, OTHER));
    NobodyIsBob(t);
    var u := Put(t, 3, Guest(BOB1, OTHER).(candidates := Some([])));
    LookupAlike(t, u, t.listed, BOB1, false);
    assert FindReplaceCandidates(db, t, 3, false) == LoginDone(u, 3);
  }

  lemma NobodyIsBob(t: Lobby)
    requires |t.conns| == 4 && t.conns[0] == ANN_IN.(pending := Some(2)) && t.listed == [0]
    ensures FindClientsToReplace(t, OTHER, BOB1) == [] && HasClient(t, BOB1) == None
  {
    assert t.listed[1..] == [] && |BOB1| != |ANN| && At(t, 0).name == ANN;
    assert Lookup(t, t.listed[1..], BOB1, false) == None;
    assert Best(t, t.listed, OTHER, BOB1) == None;
    assert Offline(t, t.listed, OTHER, BOB1) == [] && Online(t, t.listed, OTHER, BOB1) == [];
  }

  // The states of the run.
  function StaleState(k: nat): Lobby {
    var ann := ANN_IN.(pending := Some(2));
    match k
    case 0 => EMPTY
    case 1 => Plain([NEW_CLIENT], [])
    case 2 => Plain([ANN_IN], [0])
    case 3 => Plain([ANN_IN, NEW_CLIENT], [0])
    case 4 => Plain([ANN_IN.(pending := Some(1)), BOB_WAITS], [0])
    case 5 => Plain([ANN_IN, BOB_IN], [0, 1])
    case 6 => Plain([ANN_IN, BOB_IN, NEW_CLIENT], [0, 1])
    case 7 => Plain([ann, BOB_IN, CY_WAITS], [0, 1])
    case 8 => Plain([ann, BOB_LEFT, CY_WAITS], [0])
    case 9 => Plain([ann, BOB_LEFT, CY_WAITS, NEW_CLIENT], [0])
    case _ => Plain([ann, BOB_LEFT, CY_WAITS, OTHER_BOB], [0, 3])
  }

  lemma SomebodyConnects(s: Lobby, t: Lobby)
    requires t == s.(conns := s.conns + [NEW_CLIENT])
    ensures Takes(s, Connect, t)
  {
  }

  lemma StaleConnects(k: nat)
    requires k == 0 || k == 2 || k == 5 || k == 8
    ensures Takes(StaleState(k), StaleRun()[k], StaleState(k + 1))
  {
    SomebodyConnects(StaleState(k), StaleState(k + 1));
  }

  lemma StaleStepEarly(k: nat)
    requires k == 1 || k == 3 || k == 4
    ensures Takes(StaleState(k), StaleRun()[k], StaleState(k + 1))
  {
    match k
    case 1 => AnnJoins();
    case 3 => BobWaits();
    case _ => BobGetsANumber();
  }

  lemma StaleStepLate(k: nat)
    requires k == 6 || k == 7 || k == 9
    ensures Takes(StaleState(k), StaleRun()[k], StaleState(k + 1))
  {
    match k
    case 6 => CyWaits();
    case 7 => BobLeaves(ANN_IN.(pending := Some(2)));
    case _ => AnotherBobJoins(ANN_IN.(pending := Some(2)));
  }

  // The run is valid up to event k and reaches s there.
  ghost predicate Reaches(db: Db, es: seq<Event>, k: nat, s: Lobby) {
    k <= |es| && ValidRun(db, es[..k]) && Run(db, es[..k]) == s
  }

  lemma {:induction false} ReachesNext(db: Db, es: seq<Event>, k: nat, s: Lobby, t: Lobby)
    requires k < |es| && Reaches(db, es, k, s) && Possible(s, es[k]) && Clean(s, es[k]) && Step(db, s, es[k]) == t
    ensures Reaches(db, es, k + 1, t)
  {
    assert es[..k + 1][..k] == es[..k];
  }

  lemma StaleStep(k: nat)
    requires k < 10
    ensures Takes(StaleState(k), StaleRun()[k], StaleState(k + 1))
  {
    match k
    case 1 => StaleStepEarly(k);
    case 3 => StaleStepEarly(k);
    case 4 => StaleStepEarly(k);
    case 6 => StaleStepLate(k);
    case 7 => StaleStepLate(k);
    case 9 => StaleStepLate(k);
    case _ => StaleConnects(k);
  }

  lemma {:induction false} StaleRunReaches(es: seq<Event>, k: nat)
    requires es == StaleRun() && k <= 10
    ensures Reaches(NOBODY_REGISTERED, es, k, StaleState(k))
  {
    if k > 0 {
      StaleRunReaches(es, k - 1);
      StaleStep(k - 1);
      ReachesNext(NOBODY_REGISTERED, es, k - 1, StaleState(k - 1), StaleState(k));
    }
  }

  lemma TheAnswerIsNotClean(s: Lobby)
    requires s == StaleState(10)
    ensures Possible(s, Packet(0, Pong)) && !Clean(s, Packet(0, Pong))
  {
    assert Pick(s, [1]) == Some(1);
    assert At(s, 3).name == BOB1 && At(s, 0).name == ANN && |ANN| != |BOB1|;
    LookupIs(s, s.listed, BOB1, false);
    assert 3 in s.listed;
  }

  // Names are not always unique: a run of eleven possible events that ends with two players of the
  // same name, without any failure or timeout on the way.
  lemma {:induction false} StaleReplacementBreaksUniqueness()
    ensures
      var db, es := NOBODY_REGISTERED, StaleRun();
      && GoodDb(db) && ValidRun(db, es[..10]) && Possible(Run(db, es[..10]), es[10])
      && !UniqueNames(Step(db, Run(db, es[..10]), es[10]))
  {
    var db, es := NOBODY_REGISTERED, StaleRun();
    NoncesDiffer();
    StaleRunReaches(es, 10);
    TheAnswerIsNotClean(StaleState(10));
    StepKeepsNamesIff(db, es[..10], es[10]);
  }
}
