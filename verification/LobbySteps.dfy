/** Every step of the lobby keeps its invariant. */
module LobbySteps {
  import opened GoText
  import opened LobbyModel
  import opened LobbyInvariant
  import FreeName

  // ---------------------------------------------------------------- looking up

  lemma {:induction false} LookupIs(s: Lobby, listed: seq<Ref>, name: Text, irc: bool)
    ensures
      match Lookup(s, listed, name, irc)
      case Some(x) => x in listed && At(s, x).name == name && (At(s, x).perm == Irc) == irc
      case None => forall x :: x in listed && At(s, x).name == name ==> (At(s, x).perm == Irc) != irc
  {
    if listed != [] {
      LookupIs(s, listed[1..], name, irc);
      assert listed == [listed[0]] + listed[1..];
    }
  }

  lemma {:induction false} OfflineIs(s: Lobby, listed: seq<Ref>, nonce: Text, name: Text)
    ensures forall x :: x in Offline(s, listed, nonce, name) <==>
      x in listed && Same(At(s, x), nonce) && At(s, x).name != name && At(s, x).phase == Gone
  {
    if listed != [] {
      OfflineIs(s, listed[1..], nonce, name);
      assert listed == [listed[0]] + listed[1..];
    }
  }

  lemma {:induction false} OnlineIs(s: Lobby, listed: seq<Ref>, nonce: Text, name: Text)
    ensures forall x :: x in Online(s, listed, nonce, name) <==>
      x in listed && Same(At(s, x), nonce) && At(s, x).name != name && At(s, x).phase != Gone
  {
    if listed != [] {
      OnlineIs(s, listed[1..], nonce, name);
      assert listed == [listed[0]] + listed[1..];
    }
  }

  lemma {:induction false} BestIs(s: Lobby, listed: seq<Ref>, nonce: Text, name: Text)
    ensures
      match Best(s, listed, nonce, name)
      case Some(x) => x in listed && Same(At(s, x), nonce) && At(s, x).name == name
      case None => forall x :: x in listed && Same(At(s, x), nonce) ==> At(s, x).name != name
  {
    if listed != [] {
      BestIs(s, listed[1..], nonce, name);
      assert listed == [listed[0]] + listed[1..];
    }
  }

  lemma {:induction false} StrikeOthers(listed: seq<Ref>, r: Ref)
    ensures forall x :: x != r ==> (x in Strike(listed, r) <==> x in listed)
  {
    if listed != [] {
      StrikeOthers(listed[1..], r);
      assert listed == [listed[0]] + listed[1..];
    }
  }

  // Every candidate is listed, nobody waits for it, and it has the nonce.
  lemma CandidatesAreListed(s: Lobby, nonce: Text, name: Text)
    ensures forall x :: x in FindClientsToReplace(s, nonce, name) ==> x in s.listed && Same(At(s, x), nonce)
  {
    BestIs(s, s.listed, nonce, name);
    OfflineIs(s, s.listed, nonce, name);
    OnlineIs(s, s.listed, nonce, name);
  }

  lemma NoncesDiffer()
    ensures NO_SUCH_USER != IRC_NONCE && [] != IRC_NONCE
  {
    assert |NO_SUCH_USER| == 12 && |IRC_NONCE| == 3;
  }

  // ---------------------------------------------------------------- simple edits

  // A record that differs only in what the invariant does not look at.
  ghost predicate Alike(c: Client, d: Client) {
    d == c.(build := d.build, expected := d.expected, game := d.game, announced := d.announced, timers := d.timers)
  }

  lemma TouchKeeps(db: Db, s: Lobby, r: Ref, c: Client, named: bool)
    requires Inv(db, s, None, named) && r < |s.conns| && Alike(s.conns[r], c)
    ensures Inv(db, Put(s, r, c), None, named)
  {
    if s.conns[r].joined {
      JoinedPut(db, s, None, r, c, named);
    } else {
      assert AllCandidates(s, CandidatesOf(s.conns[r]), named);
      UnjoinedPut(db, s, None, r, c, named);
    }
  }

  lemma {:induction false} NoticesKeep(db: Db, s: Lobby, notices: seq<Notice>, named: bool)
    requires Inv(db, s, None, named)
    ensures Inv(db, s.(notices := notices), None, named)
  {
    var t := s.(notices := notices);
    assert forall x :: At(t, x) == At(s, x);
    assert KeepsJoined(s, t);
    forall q | 0 <= q < |t.conns| ensures AllCandidates(t, CandidatesOf(t.conns[q]), named) {
      CandidatesStay(s, t, CandidatesOf(s.conns[q]), named);
    }
    forall x: Ref, p: Ref | Link(t, None, x, p) ensures Link(s, None, x, p) && Waits(db, t, x, p, named) {
      assert Link(s, None, x, p);
      assert Waits(db, s, x, p, named);
      LinkStays(db, s, None, t, x, p, named);
    }
    forall x: Ref ensures Accounted(t, None, x) {
      assert Accounted(s, None, x);
    }
  }

  // The client that logs in changes while nobody else is concerned.
  lemma {:induction false} EditMayEnter(db: Db, s: Lobby, busy: Option<Ref>, c: Ref, me: Client, named: bool)
    requires Inv(db, s, busy, named) && c < |s.conns| && !s.conns[c].joined && (forall x :: !Link(s, busy, x, c))
    requires RecordOk(db, me) && !me.joined && AllCandidates(s, CandidatesOf(me), named)
    ensures Inv(db, Put(s, c, me), busy, named) && (forall x :: !Link(Put(s, c, me), busy, x, c))
  {
    UnjoinedPut(db, s, busy, c, me, named);
    forall x ensures !Link(Put(s, c, me), busy, x, c) {
      assert !Link(s, busy, x, c);
    }
  }

  // Nobody waits for a connection that has not made its attempt.
  lemma NotAwaited(db: Db, s: Lobby, c: Ref, named: bool)
    requires Inv(db, s, None, named) && c < |s.conns| && s.conns[c].attempt == NotYet
    ensures forall x :: !Link(s, None, x, c)
  {
    forall x ensures !Link(s, None, x, c) {
      assert Link(s, None, x, c) ==> Waits(db, s, x, c, named);
    }
  }

  // ---------------------------------------------------------------- the search for a place

  lemma UnusedIsFree(db: Db, s: Lobby, name: Text)
    requires name !in Used(db, s)
    ensures NameFree(s, name)
  {
  }

  lemma FindUnconnectedKeeps(db: Db, s: Lobby, busy: Option<Ref>, c: Ref, named: bool)
    requires GoodDb(db) && Inv(db, s, busy, named) && MayEnter(s, busy, c)
    ensures Inv(db, FindUnconnectedName(db, s, c), busy, named)
  {
    var me := s.conns[c];
    var k := FreeIndex(db, s, c);
    assert c !in s.listed;
    assert AllCandidates(s, CandidatesOf(me), named);
    NoncesDiffer();
    if k > FreeName.TRIES {
      var last := me.(name := FreeName.Numbered(me.name, FreeName.TRIES), phase := Gone);
      GaveUp(db, s, busy, c, last, named);
    } else {
      var name := FreeName.Numbered(me.name, k);
      var nonce :=
        if me.version >= BUILD20 && (me.perm == Registered || me.perm == Superuser)
        then DowngradedNonce(db, me.name, name) else me.nonce;
      var me' := me.(name := name, nonce := nonce, perm := Unregistered);
      var t := Put(s, c, me');
      EditMayEnter(db, s, busy, c, me', named);
      UnusedIsFree(db, s, name);
      assert forall x :: x in s.listed ==> At(t, x) == At(s, x);
      LoginDoneKeeps(db, t, busy, c, named);
    }
  }

  // The name tried last sticks to the connection that is then closed.
  lemma GaveUp(db: Db, s: Lobby, busy: Option<Ref>, c: Ref, last: Client, named: bool)
    requires Inv(db, s, busy, named) && MayEnter(s, busy, c) && last == s.conns[c].(name := last.name, phase := Gone)
    ensures Inv(db, Put(s, c, last), busy, named)
    ensures Disconnect(Put(s, c, s.conns[c].(name := last.name)), c) == Put(s, c, last)
  {
    assert AllCandidates(s, CandidatesOf(s.conns[c]), named);
    EditMayEnter(db, s, busy, c, last, named);
  }

  lemma {:induction false} PickStable(s: Lobby, c: Ref, me: Client, cs: seq<Ref>)
    requires forall k :: 0 <= k < |cs| ==> cs[k] != c
    ensures Pick(Put(s, c, me), cs) == Pick(s, cs)
  {
    if cs != [] {
      PickStable(s, c, me, cs[1..]);
    }
  }

  // A fast ping, and c waits.
  lemma {:induction false} ProbeKeeps(db: Db, s: Lobby, busy: Option<Ref>, c: Ref, prior: Ref, named: bool)
    requires Inv(db, s, busy, named) && MayEnter(s, busy, c) && Candidate(s, prior) && s.conns[c].candidates.Some?
    requires s.conns[c].phase == Handshake && |CandidatesOf(s.conns[c])| + s.conns[c].probes < s.conns[c].quota
    requires s.conns[c].perm == Unregistered || s.conns[c].name == s.conns[prior].name
    requires named ==> Apart(s, s.conns[prior].name, CandidatesOf(s.conns[c]))
    ensures Inv(db, Probe(s, c, prior), busy, named)
  {
    var me := s.conns[c].(probes := s.conns[c].probes + 1);
    var t := Put(s, c, me);
    assert RecordOk(db, s.conns[c]);
    assert AllCandidates(s, CandidatesOf(s.conns[c]), named);
    EditMayEnter(db, s, busy, c, me, named);
    if named { ApartStays(s, c, me, s.conns[prior].name, CandidatesOf(me), named); }
    assert prior != c && Waits(db, t, prior, c, named);
    LinkPut(db, t, busy, prior, c, named);
    assert Probe(s, c, prior) == Put(t, prior, t.conns[prior].(pending := Some(c)));
  }

  lemma ApartStays(s: Lobby, c: Ref, me: Client, name: Text, cs: seq<Ref>, named: bool)
    requires c < |s.conns| && !s.conns[c].joined && AllCandidates(s, cs, named) && Apart(s, name, cs)
    ensures Apart(Put(s, c, me), name, cs)
  {
    forall k | 0 <= k < |cs| ensures At(Put(s, c, me), cs[k]).name != name {
      assert Candidate(s, cs[k]) && cs[k] != c;
    }
  }

  // Looking at the next candidate: it shortens the list and may cost the permissions.
  lemma NextCandidate(db: Db, s: Lobby, busy: Option<Ref>, c: Ref, me: Client, named: bool)
    requires GoodDb(db) && Inv(db, s, busy, named) && MayEnter(s, busy, c) && s.conns[c].phase == Handshake
    requires CandidatesOf(s.conns[c]) != []
    requires
      var cs := CandidatesOf(s.conns[c]);
      me == Downgrade(db, s.conns[c], At(s, cs[0]).name).(candidates := Some(cs[1..]))
    ensures
      var t, cs := Put(s, c, me), CandidatesOf(s.conns[c]);
      && Inv(db, t, busy, named) && MayEnter(t, busy, c) && Candidate(t, cs[0]) && At(t, cs[0]) == At(s, cs[0])
      && Pick(t, cs) == Pick(s, cs)
      && (me.perm == Unregistered || me.name == At(t, cs[0]).name)
      && (named ==> Apart(t, At(t, cs[0]).name, cs[1..]))
      && (forall x :: x != c ==> At(t, x) == At(s, x))
  {
    var cs := CandidatesOf(s.conns[c]);
    NextIsOk(db, s, c, me, named);
    EditMayEnter(db, s, busy, c, me, named);
    PickStable(s, c, me, cs);
    if named { ApartStays(s, c, me, At(s, cs[0]).name, cs[1..], named); }
  }

  lemma NextIsOk(db: Db, s: Lobby, c: Ref, me: Client, named: bool)
    requires GoodDb(db) && ClientsOk(db, s, named) && c < |s.conns| && !s.conns[c].joined && s.conns[c].perm != Irc
    requires s.conns[c].phase == Handshake && CandidatesOf(s.conns[c]) != []
    requires
      var cs := CandidatesOf(s.conns[c]);
      me == Downgrade(db, s.conns[c], At(s, cs[0]).name).(candidates := Some(cs[1..]))
    ensures RecordOk(db, me) && !me.joined
    ensures
      var cs := CandidatesOf(s.conns[c]);
      && AllCandidates(s, cs[1..], named) && (named ==> Apart(s, At(s, cs[0]).name, cs[1..]))
      && forall k :: 0 <= k < |cs| ==> Candidate(s, cs[k]) && cs[k] != c
  {
    NoncesDiffer();
    var cs := CandidatesOf(s.conns[c]);
    assert RecordOk(db, s.conns[c]) && AllCandidates(s, cs, named);
    assert forall k :: 0 <= k < |cs| ==> Candidate(s, cs[k]);
  }

  lemma {:induction false} LookupAlike(s: Lobby, t: Lobby, listed: seq<Ref>, name: Text, irc: bool)
    requires forall x :: x in listed ==> At(t, x).name == At(s, x).name && At(t, x).perm == At(s, x).perm
    ensures Lookup(t, listed, name, irc) == Lookup(s, listed, name, irc)
  {
    if listed != [] {
      LookupAlike(s, t, listed[1..], name, irc);
    }
  }

  // An edit of an unlisted client does not change what can be replaced.
  lemma ReplaceableAlike(s: Lobby, t: Lobby, c: Ref, x: Ref)
    requires c !in s.listed && t.listed == s.listed && x != c && forall y :: y != c ==> At(t, y) == At(s, y)
    ensures Replaceable(t, x) <==> Replaceable(s, x)
  {
    LookupAlike(s, t, s.listed, At(s, x).name, false);
  }

  lemma ReplaceableIs(s: Lobby, x: Ref)
    ensures Replaceable(s, x) ==> x in s.listed || NameFree(s, At(s, x).name)
  {
    LookupIs(s, s.listed, At(s, x).name, false);
  }

  lemma {:induction false} CheckCandidatesKeeps(db: Db, s: Lobby, busy: Option<Ref>, c: Ref, named: bool)
    requires GoodDb(db) && Inv(db, s, busy, named) && MayEnter(s, busy, c) && (named ==> AnswerIsClean(s, c))
    ensures Inv(db, CheckCandidates(db, s, c), busy, named)
    decreases |CandidatesOf(At(s, c))|
  {
    var cs := CandidatesOf(s.conns[c]);
    if s.conns[c].phase != Handshake {
      DisconnectKeeps(db, s, busy, c, named);
    } else if cs == [] {
      FindUnconnectedKeeps(db, s, busy, c, named);
    } else {
      var prior := cs[0];
      var me := Downgrade(db, s.conns[c], At(s, prior).name).(candidates := Some(cs[1..]));
      var t := Put(s, c, me);
      NextCandidate(db, s, busy, c, me, named);
      if At(t, prior).pending.Some? {
        if named { StillClean(s, c, me, named); }
        CheckCandidatesKeeps(db, t, busy, c, named);
      } else if At(t, prior).phase == Gone {
        assert prior != c && c !in s.listed;
        ReplaceableAlike(s, t, c, prior);
        ReplaceableIs(t, prior);
        TakeOverKeeps(db, t, busy, c, prior, named);
      } else {
        ProbeKeeps(db, t, busy, c, prior, named);
      }
    }
  }

  // Skipping a candidate leaves the same one to be replaced.
  lemma StillClean(s: Lobby, c: Ref, me: Client, named: bool)
    requires ListedOk(s) && c < |s.conns| && !s.conns[c].joined && AnswerIsClean(s, c)
    requires s.conns[c].phase == Handshake && AllCandidates(s, CandidatesOf(s.conns[c]), named)
    requires
      var cs := CandidatesOf(s.conns[c]);
      cs != [] && At(s, cs[0]).pending.Some? && me.candidates == Some(cs[1..])
    ensures AnswerIsClean(Put(s, c, me), c)
  {
    var cs, t := CandidatesOf(s.conns[c]), Put(s, c, me);
    assert forall k :: 0 <= k < |cs| ==> Candidate(s, cs[k]) && cs[k] != c;
    PickStable(s, c, me, cs[1..]);
    PickIsOneOf(s, cs[1..]);
    if Pick(s, cs[1..]).Some? { ReplaceableAlike(s, t, c, Pick(s, cs[1..]).value); }
  }

  lemma NobodyByThatName(s: Lobby, name: Text)
    requires HasClient(s, name) == None || HasClient(s, name) == HasIrcClient(s, name)
    ensures NameFree(s, name)
  {
    LookupIs(s, s.listed, name, false);
    LookupIs(s, s.listed, name, true);
  }

  ghost predicate Distinct(s: seq<Ref>) {
    forall i, j :: 0 <= i < j < |s| ==> s[i] != s[j]
  }

  lemma DistinctConcat(a: seq<Ref>, b: seq<Ref>)
    requires Distinct(a) && Distinct(b) && forall x :: x in a ==> x !in b
    ensures Distinct(a + b)
  {
    var c := a + b;
    forall i, j | 0 <= i < j < |c| ensures c[i] != c[j] {
      if i < |a| <= j { assert c[i] in a && c[j] in b; }
    }
  }

  lemma {:induction false} OfflineDistinct(s: Lobby, listed: seq<Ref>, nonce: Text, name: Text)
    requires Distinct(listed)
    ensures Distinct(Offline(s, listed, nonce, name))
  {
    if listed != [] {
      OfflineDistinct(s, listed[1..], nonce, name);
      OfflineIs(s, listed[1..], nonce, name);
      assert listed[0] !in listed[1..];
      DistinctConcat(Offline(s, listed[1..], nonce, name), [listed[0]]);
    }
  }

  lemma {:induction false} OnlineDistinct(s: Lobby, listed: seq<Ref>, nonce: Text, name: Text)
    requires Distinct(listed)
    ensures Distinct(Online(s, listed, nonce, name))
  {
    if listed != [] {
      OnlineDistinct(s, listed[1..], nonce, name);
      OnlineIs(s, listed[1..], nonce, name);
      assert listed[0] !in listed[1..];
      DistinctConcat([listed[0]], Online(s, listed[1..], nonce, name));
    }
  }

  lemma FindingsDistinct(s: Lobby, nonce: Text, name: Text)
    requires Distinct(s.listed)
    ensures Distinct(FindClientsToReplace(s, nonce, name))
  {
    var best, off, on :=
      Best(s, s.listed, nonce, name), Offline(s, s.listed, nonce, name), Online(s, s.listed, nonce, name);
    var wanted: seq<Ref> := if best.Some? then [best.value] else [];
    BestIs(s, s.listed, nonce, name);
    OfflineIs(s, s.listed, nonce, name);
    OnlineIs(s, s.listed, nonce, name);
    OfflineDistinct(s, s.listed, nonce, name);
    OnlineDistinct(s, s.listed, nonce, name);
    DistinctConcat(wanted, off);
    DistinctConcat(wanted + off, on);
  }

  lemma CandidatesFound(db: Db, s: Lobby, c: Ref, named: bool)
    requires Inv(db, s, None, named) && MayEnter(s, None, c)
    ensures AllCandidates(s, FindClientsToReplace(s, s.conns[c].nonce, s.conns[c].name), named)
  {
    var cs := FindClientsToReplace(s, s.conns[c].nonce, s.conns[c].name);
    CandidatesAreListed(s, s.conns[c].nonce, s.conns[c].name);
    FindingsDistinct(s, s.conns[c].nonce, s.conns[c].name);
    forall k | 0 <= k < |cs| ensures cs[k] in s.listed && Candidate(s, cs[k]) {
      assert cs[k] in s.listed && Same(At(s, cs[k]), s.conns[c].nonce);
      assert RecordOk(db, s.conns[c]);
    }
    forall j, k | named && 0 <= j < k < |cs| ensures At(s, cs[j]).name != At(s, cs[k]).name {
      assert cs[j] in s.listed && cs[k] in s.listed && cs[j] != cs[k];
    }
  }

  lemma {:induction false} PickIsOneOf(s: Lobby, cs: seq<Ref>)
    ensures Pick(s, cs).Some? ==> Pick(s, cs).value in cs
  {
    if cs != [] {
      PickIsOneOf(s, cs[1..]);
    }
  }

  // A replacement in the same step as the lookup needs no assumption: what was found is listed.
  lemma {:induction false} FindReplaceKeeps(db: Db, s: Lobby, c: Ref, registered: bool, named: bool)
    requires GoodDb(db) && Inv(db, s, None, named) && MayEnter(s, None, c) && s.conns[c].attempt == ByLogin
    ensures Inv(db, FindReplaceCandidates(db, s, c, registered), None, named)
  {
    var cs := FindClientsToReplace(s, s.conns[c].nonce, s.conns[c].name);
    var me := s.conns[c].(candidates := Some(cs), quota := |cs|, probes := 0);
    var t := Put(s, c, me);
    CandidatesFound(db, s, c, named);
    EditMayEnter(db, s, None, c, me, named);
    if cs != [] {
      CandidatesAreListed(s, s.conns[c].nonce, s.conns[c].name);
      PickIsOneOf(t, cs);
      CheckCandidatesKeeps(db, t, None, c, named);
    } else if HasClient(t, me.name) == None || HasClient(t, me.name) == HasIrcClient(t, me.name) {
      NobodyByThatName(t, me.name);
      LoginDoneKeeps(db, t, None, c, named);
      FindUnconnectedKeeps(db, t, None, c, named);
    } else {
      FindUnconnectedKeeps(db, t, None, c, named);
    }
  }

  // ---------------------------------------------------------------- commands

  // A connection whose attempt is refused.
  lemma {:induction false} RefuseKeeps(db: Db, s: Lobby, c: Ref, me: Client, named: bool)
    requires Inv(db, s, None, named) && c < |s.conns| && !s.conns[c].joined && (forall x :: !Link(s, None, x, c))
    requires !me.joined && me.perm == Unregistered && me.nonce != IRC_NONCE
    requires me.candidates == None && me.pending == None
    requires me.probes <= me.quota
    ensures Inv(db, Disconnect(Put(s, c, me), c), None, named)
  {
    EditMayEnter(db, s, None, c, me.(phase := Gone), named);
    assert Disconnect(Put(s, c, me), c) == Put(s, c, me.(phase := Gone));
  }

  lemma {:induction false} HandleLoginKeeps(db: Db, s: Lobby, c: Ref, cmd: Command, named: bool)
    requires GoodDb(db) && Inv(db, s, None, named) && cmd.Login? && c < |s.conns|
    requires s.conns[c].phase != Gone && s.conns[c].attempt == NotYet && Orderly(s.conns[c], cmd)
    ensures Inv(db, HandleLogin(db, s, c, cmd), None, named)
  {
    NotAwaited(db, s, c, named);
    NoncesDiffer();
    var me := s.conns[c].(version := cmd.version, name := cmd.name, build := cmd.build, attempt := ByLogin);
    var hasNonce := cmd.registered || cmd.version >= BUILD20;
    if !Supported(cmd.version) || (hasNonce && cmd.nonce == None) {
      RefuseKeeps(db, s, c, me, named);
    } else {
      var me' := if hasNonce then me.(nonce := cmd.nonce.value) else me;
      if cmd.banned || (cmd.registered && cmd.name !in db.users) {
        RefuseKeeps(db, s, c, me', named);
      } else if cmd.registered && cmd.version >= BUILD20 {
        if cmd.challenge == None {
          RefuseKeeps(db, s, c, me'.(expected := []), named);
        } else {
          EditMayEnter(db, s, None, c,
            me'.(expected := db.sha(cmd.challenge.value + db.users[cmd.name].password), attempt := NotYet), named);
        }
      } else {
        LoginProceeds(db, s, c, cmd, me', named);
      }
    }
  }

  lemma {:induction false} LoginProceeds(db: Db, s: Lobby, c: Ref, cmd: Command, me: Client, named: bool)
    requires GoodDb(db) && Inv(db, s, None, named) && cmd.Login? && c < |s.conns| && !s.conns[c].joined
    requires (forall x :: !Link(s, None, x, c)) && me.attempt == ByLogin && me.name == cmd.name
    requires RecordOk(db, me) && !me.joined && me.perm == Unregistered && me.candidates == None && me.phase != Gone
    ensures Inv(db, FindReplaceCandidates(db, Put(s, c, me), c, false), None, named)
    ensures Inv(db, FindReplaceCandidates(db, Put(s, c, me.(perm := Permissions(db, cmd.name))), c, true), None, named)
    ensures Inv(db, Disconnect(Put(s, c, me), c), None, named)
  {
    RefuseKeeps(db, s, c, me, named);
    EditMayEnter(db, s, None, c, me, named);
    FindReplaceKeeps(db, Put(s, c, me), c, false, named);
    var me' := me.(perm := Permissions(db, cmd.name));
    EditMayEnter(db, s, None, c, me', named);
    FindReplaceKeeps(db, Put(s, c, me'), c, true, named);
  }

  lemma {:induction false} HandleMalformedKeeps(db: Db, s: Lobby, c: Ref, cmd: Command, named: bool)
    requires Inv(db, s, None, named) && cmd.Malformed? && c < |s.conns|
    requires s.conns[c].phase != Gone && s.conns[c].attempt == NotYet
    ensures Inv(db, HandleMalformed(s, c, cmd), None, named)
  {
    NotAwaited(db, s, c, named);
    var me := s.conns[c];
    RefuseKeeps(db, s, c, me.(version := cmd.version, name := if cmd.gotName.Some? then cmd.gotName.value else me.name,
                              build := if cmd.gotBuild.Some? then cmd.gotBuild.value else me.build), named);
  }

  lemma {:induction false} HandleCheckPasswordKeeps(db: Db, s: Lobby, c: Ref, cmd: Command, named: bool)
    requires Inv(db, s, None, named) && cmd.CheckPassword? && c < |s.conns|
    requires s.conns[c].phase != Gone && s.conns[c].attempt == NotYet
    ensures Inv(db, HandleCheckPassword(db, s, c, cmd), None, named)
  {
    NotAwaited(db, s, c, named);
    var me := s.conns[c].(version := cmd.version, name := cmd.name, build := cmd.build);
    if cmd.version < BUILD21 || cmd.name !in db.users {
      RefuseKeeps(db, s, c, me, named);
    } else {
      var expected := if cmd.challenge == None then [] else db.sha(cmd.challenge.value + db.users[cmd.name].password);
      EditMayEnter(db, s, None, c, me.(expected := expected, phase := CheckPwd, attempt := NotYet), named);
    }
  }

  lemma {:induction false} HandlePasswordKeeps(db: Db, s: Lobby, c: Ref, response: Text, named: bool)
    requires GoodDb(db) && Inv(db, s, None, named) && c < |s.conns|
    requires s.conns[c].phase != Gone && s.conns[c].attempt == NotYet
    ensures Inv(db, HandlePassword(db, s, c, response), None, named)
  {
    NotAwaited(db, s, c, named);
    NoncesDiffer();
    var me := s.conns[c];
    if me.expected != response {
      DisconnectKeeps(db, s, None, c, named);
    } else if me.phase == Handshake {
      var me' := me.(perm := Permissions(db, me.name), nonce := DowngradedNonce(db, me.name, me.name),
        attempt := ByLogin);
      EditMayEnter(db, s, None, c, me', named);
      FindReplaceKeeps(db, Put(s, c, me'), c, true, named);
    } else {
      EditMayEnter(db, s, None, c, me.(phase := Handshake, attempt := NotYet), named);
    }
  }

  lemma HandleReloginKeeps(db: Db, s: Lobby, c: Ref, cmd: Command, named: bool)
    requires Inv(db, s, None, named) && cmd.Relogin? && c < |s.conns|
    requires s.conns[c].phase != Gone && s.conns[c].perm != Irc && s.conns[c].attempt == NotYet
    ensures Inv(db, HandleRelogin(db, s, c, cmd), None, named)
  {
    NotAwaited(db, s, c, named);
    DisconnectKeeps(db, s, None, c, named);
    LookupIs(s, s.listed, cmd.name, false);
    var found := HasClient(s, cmd.name);
    if s.conns[c].phase == Handshake && found.Some? {
      ReloginProceeds(db, s, c, found.value, named);
    }
  }

  lemma ReloginProceeds(db: Db, s: Lobby, c: Ref, prior: Ref, named: bool)
    requires Inv(db, s, None, named) && c < |s.conns| && !s.conns[c].joined && s.conns[c].phase == Handshake
    requires s.conns[c].attempt == NotYet && (forall x :: !Link(s, None, x, c))
    requires prior in s.listed && At(s, prior).perm != Irc
    ensures
      var him := At(s, prior);
      var t := Put(s, c, At(s, c).(version := him.version, perm := him.perm, name := him.name, build := him.build,
                                   game := him.game, nonce := him.nonce, attempt := ByRelogin));
      && (him.phase == Gone ==> Inv(db, SuccessfulRelogin(t, c, prior), None, named))
      && (him.phase != Gone ==> Inv(db, Put(t, prior, At(t, prior).(pending := Some(c))), None, named))
  {
    var him := At(s, prior);
    var me := At(s, c).(version := him.version, perm := him.perm, name := him.name, build := him.build,
                        game := him.game, nonce := him.nonce, attempt := ByRelogin);
    var t := Put(s, c, me);
    assert RecordOk(db, s.conns[prior]) && s.conns[prior].joined;
    EditMayEnter(db, s, None, c, me, named);
    if him.phase == Gone {
      ReloginKeeps(db, t, None, c, prior, named);
    } else {
      LinkPut(db, t, None, prior, c, named);
    }
  }

  lemma AnnounceKeeps(db: Db, s: Lobby, r: Ref, named: bool)
    requires Inv(db, s, None, named) && r < |s.conns|
    ensures Inv(db, AnnounceNow(s, r), None, named)
  {
    var c := s.conns[r].(announced := r in s.listed);
    TouchKeeps(db, s, r, c, named);
    NoticesKeep(db, Put(s, r, c), AnnounceNow(s, r).notices, named);
  }

  lemma {:induction false} LeaveKeeps(db: Db, s: Lobby, r: Ref, named: bool)
    requires Inv(db, s, None, named) && r < |s.conns| && s.conns[r].perm != Irc
    ensures Inv(db, RemoveClient(Disconnect(Put(s, r, s.conns[r].(game := None)), r), r), None, named)
    ensures Inv(db, RemoveClient(Disconnect(s, r), r), None, named)
    ensures Inv(db, RemoveClient(Put(s, r, s.conns[r].(game := None)), r), None, named)
  {
    var t := Put(s, r, s.conns[r].(game := None));
    TouchKeeps(db, s, r, s.conns[r].(game := None), named);
    DisconnectKeeps(db, t, None, r, named);
    RemoveKeeps(db, Disconnect(t, r), None, r, named);
    DisconnectKeeps(db, s, None, r, named);
    RemoveKeeps(db, Disconnect(s, r), None, r, named);
    RemoveKeeps(db, t, None, r, named);
  }

  // A connected client that tries to log in again is only disconnected.
  lemma ConnectedIsRefused(db: Db, s: Lobby, c: Ref, cmd: Command)
    requires c < |s.conns| && s.conns[c].phase == Connected && IsAttempt(cmd)
    ensures Handle(db, s, c, cmd) == Disconnect(s, c)
  {
  }

  lemma {:induction false} HandleKeeps(db: Db, s: Lobby, r: Ref, cmd: Command, named: bool)
    requires GoodDb(db) && Inv(db, s, None, named) && r < |s.conns|
    requires s.conns[r].phase != Gone && s.conns[r].perm != Irc && Orderly(s.conns[r], cmd)
    ensures Inv(db, Handle(db, s, r, cmd), None, named)
  {
    if s.conns[r].phase == Connected && IsAttempt(cmd) {
      ConnectedIsRefused(db, s, r, cmd);
      DisconnectKeeps(db, s, None, r, named);
      return;
    }
    match cmd
    case Login(_, _, _, _, _, _, _) => HandleLoginKeeps(db, s, r, cmd, named);
    case Malformed(_, _, _) => HandleMalformedKeeps(db, s, r, cmd, named);
    case CheckPassword(_, _, _, _) => HandleCheckPasswordKeeps(db, s, r, cmd, named);
    case Password(response) => HandlePasswordKeeps(db, s, r, response, named);
    case Relogin(_, _, _, _, _, _) => HandleReloginKeeps(db, s, r, cmd, named);
    case Leave => LeaveKeeps(db, s, r, named);
    case Pong =>
    case Chat => AnnounceKeeps(db, s, r, named);
    case EnterGame(game) => TouchKeeps(db, s, r, s.conns[r].(game := game), named);
    case Garbage => DisconnectKeeps(db, s, None, r, named);
  }

  // ---------------------------------------------------------------- answers and silence

  lemma BusyAside(db: Db, s: Lobby, x: Ref, named: bool)
    requires Inv(db, s, None, named)
    ensures Inv(db, s, Some(x), named)
    ensures forall y, p :: Link(s, Some(x), y, p) ==> Link(s, None, y, p) && y != x
  {
    forall y: Ref, p: Ref | Link(s, Some(x), y, p) ensures Link(s, None, y, p) {}
    forall y: Ref ensures Accounted(s, Some(x), y) {
      assert Accounted(s, None, y);
    }
  }

  // The answering client and the others in the lobby stay who they are.
  ghost predicate StaysJoined(s: Lobby, t: Lobby) {
    |s.conns| == |t.conns| && forall x :: 0 <= x < |s.conns| && s.conns[x].joined ==>
      t.conns[x].joined && t.conns[x].perm == s.conns[x].perm && t.conns[x].attempt == s.conns[x].attempt
      && (t.conns[x].phase == s.conns[x].phase)
  }

  lemma LoginDoneStays(s: Lobby, c: Ref)
    requires c < |s.conns| && !s.conns[c].joined
    ensures StaysJoined(s, LoginDone(s, c))
  {
  }

  lemma TakeOverStays(s: Lobby, c: Ref, prior: Ref)
    requires c < |s.conns| && !s.conns[c].joined
    ensures StaysJoined(s, TakeOver(s, c, prior))
  {
    LoginDoneStays(TakeName(s, c, prior), c);
  }

  lemma FindUnconnectedStays(db: Db, s: Lobby, c: Ref)
    requires c < |s.conns| && !s.conns[c].joined
    ensures StaysJoined(s, FindUnconnectedName(db, s, c))
  {
    var t := FindUnconnectedName(db, s, c);
    var me := s.conns[c];
    var k := FreeIndex(db, s, c);
    if k <= FreeName.TRIES {
      var name := FreeName.Numbered(me.name, k);
      var nonce :=
        if me.version >= BUILD20 && (me.perm == Registered || me.perm == Superuser)
        then DowngradedNonce(db, me.name, name) else me.nonce;
      LoginDoneStays(Put(s, c, me.(name := name, nonce := nonce, perm := Unregistered)), c);
    }
  }

  lemma {:induction false} CheckCandidatesStays(db: Db, s: Lobby, c: Ref)
    requires c < |s.conns| && !s.conns[c].joined
    ensures StaysJoined(s, CheckCandidates(db, s, c))
    decreases |CandidatesOf(At(s, c))|
  {
    var cs := CandidatesOf(s.conns[c]);
    if s.conns[c].phase == Handshake {
      if cs == [] {
        FindUnconnectedStays(db, s, c);
      } else {
        var t := Put(s, c, Downgrade(db, s.conns[c], At(s, cs[0]).name).(candidates := Some(cs[1..])));
        if At(t, cs[0]).pending.Some? {
          CheckCandidatesStays(db, t, c);
        } else if At(t, cs[0]).phase == Gone {
          TakeOverStays(t, c, cs[0]);
        }
      }
    }
  }

  lemma {:induction false} AnswerKeeps(db: Db, s: Lobby, x: Ref, named: bool)
    requires GoodDb(db) && Inv(db, s, None, named) && x < |s.conns| && Live(s, x) && s.conns[x].perm != Irc
    requires named && s.conns[x].pending.Some? ==> AnswerIsClean(s, s.conns[x].pending.value)
    ensures
      var t := Answer(db, s, x);
      && Inv(db, t, None, named) && |t.conns| == |s.conns|
      && (s.conns[x].pending.Some? ==> StaysJoined(s, t) && s.conns[x].joined)
      && (s.conns[x].pending == None ==> t == s)
  {
    if s.conns[x].pending.Some? {
      var p := s.conns[x].pending.value;
      assert RecordOk(db, s.conns[x]);
      assert Accounted(s, None, x);
      assert Link(s, None, x, p);
      assert Waits(db, s, x, p, named);
      BusyAside(db, s, x, named);
      if s.conns[p].candidates == None {
        DisconnectKeeps(db, s, Some(x), p, named);
        AnsweredPut(db, s, Disconnect(s, p), x, named);
      } else {
        assert MayEnter(s, Some(x), p);
        CheckCandidatesKeeps(db, s, Some(x), p, named);
        CheckCandidatesStays(db, s, p);
        AnsweredPut(db, s, CheckCandidates(db, s, p), x, named);
      }
    }
  }

  lemma {:induction false} AnsweredPut(db: Db, s: Lobby, t: Lobby, x: Ref, named: bool)
    requires Inv(db, t, Some(x), named) && StaysJoined(s, t)
    requires x < |s.conns| && s.conns[x].joined && s.conns[x].perm != Irc
    ensures var u := Put(t, x, At(t, x).(pending := None)); Inv(db, u, None, named) && StaysJoined(s, u)
  {
    assert RecordOk(db, t.conns[x]);
    JoinedPut(db, t, Some(x), x, t.conns[x].(pending := None), named);
  }

  // p has lost its connection while it waited: it takes the name of x all the same, but not its place.
  lemma {:induction false} GivenUp(db: Db, t: Lobby, x: Ref, p: Ref, named: bool)
    requires Inv(db, t, Some(x), named) && MayEnter(t, Some(x), p) && Candidate(t, x) && Waits(db, t, x, p, named)
    requires t.conns[p].phase != Handshake && t.conns[p].candidates.Some?
    ensures Inv(db, TakeOver(t, p, x), Some(x), named) && Waits(db, TakeOver(t, p, x), x, p, named)
    ensures forall y :: !Link(TakeOver(t, p, x), Some(x), y, p)
  {
    var me := t.conns[p].(name := t.conns[x].name, game := t.conns[x].game);
    RenameKeeps(db, t, Some(x), p, x, named);
    GivenUpRest(db, t, Put(t, p, me), x, p, named);
  }

  lemma {:induction false} GivenUpRest(db: Db, t: Lobby, u: Lobby, x: Ref, p: Ref, named: bool)
    requires ClientsOk(db, t, named) && Waits(db, t, x, p, named) && !t.conns[p].joined && x < |t.conns| && x != p
    requires u == Put(t, p, t.conns[p].(name := t.conns[x].name, game := t.conns[x].game))
    requires t.conns[p].phase != Handshake && t.conns[p].candidates.Some?
    requires Inv(db, u, Some(x), named) && MayEnter(u, Some(x), p)
    ensures Inv(db, TakeOver(t, p, x), Some(x), named) && Waits(db, TakeOver(t, p, x), x, p, named)
    ensures forall y :: !Link(TakeOver(t, p, x), Some(x), y, p)
  {
    var v := RemoveClient(u, x);
    RemoveKeeps(db, u, Some(x), x, named);
    assert v.conns[p] == u.conns[p];
    var w := Disconnect(v, p);
    DisconnectKeeps(db, v, Some(x), p, named);
    assert TakeOver(t, p, x) == w;
    RemovedStays(t, u, x, p);
    GivenUpWaits(db, t, x, p, w, named);
  }

  lemma RemovedStays(t: Lobby, u: Lobby, x: Ref, p: Ref)
    requires p < |t.conns| && x < |t.conns| && !t.conns[p].joined
    requires |u.conns| == |t.conns| && x != p && t.conns[x].joined
    requires forall q :: 0 <= q < |t.conns| && q != p ==> u.conns[q] == t.conns[q]
    ensures KeepsJoined(t, Disconnect(RemoveClient(u, x), p)) && |RemoveClient(u, x).conns| == |t.conns|
  {
  }

  lemma {:induction false} GivenUpWaits(db: Db, t: Lobby, x: Ref, p: Ref, v: Lobby, named: bool)
    requires ClientsOk(db, t, named) && Waits(db, t, x, p, named)
    requires !t.conns[p].joined && x < |t.conns| && |v.conns| == |t.conns|
    requires v.conns[p] == t.conns[p].(name := t.conns[x].name, game := t.conns[x].game, phase := Gone)
    requires t.conns[p].candidates.Some? && KeepsJoined(t, v)
    ensures Waits(db, v, x, p, named)
  {
    var cs := CandidatesOf(t.conns[p]);
    assert AllCandidates(t, cs, named);
    forall k | 0 <= k < |cs| ensures At(v, cs[k]).name == At(t, cs[k]).name {
      assert Candidate(t, cs[k]);
    }
  }

  lemma {:induction false} FailedPongKeeps(db: Db, s: Lobby, x: Ref, named: bool)
    requires Inv(db, s, None, named) && x < |s.conns| && s.conns[x].perm != Irc && (named ==> FailureIsClean(s, x))
    requires s.conns[x].pending.Some? ==> !At(s, s.conns[x].pending.value).joined
    ensures Inv(db, FailedPong(s, x), None, named)
  {
    var t := Disconnect(s, x);
    DisconnectKeeps(db, s, None, x, named);
    if s.conns[x].pending.Some? {
      var p := s.conns[x].pending.value;
      assert Link(s, None, x, p) && Link(t, None, x, p);
      assert Waits(db, t, x, p, named) && p != x;
      BusyAside(db, t, x, named);
      assert MayEnter(t, Some(x), p);
      LookupAlike(s, t, s.listed, s.conns[x].name, false);
      FailedPongServes(db, t, x, p, named);
    }
  }

  // x has failed, and whoever waits for it is served.
  lemma {:induction false} FailedPongServes(db: Db, t: Lobby, x: Ref, p: Ref, named: bool)
    requires Inv(db, t, Some(x), named) && x < |t.conns| && t.conns[x].phase == Gone && Waits(db, t, x, p, named)
    requires t.conns[x].pending == Some(p) && MayEnter(t, Some(x), p)
    requires named && (t.conns[p].candidates == None || t.conns[p].phase == Handshake) ==> Replaceable(t, x)
    ensures
      Inv(db, if t.conns[p].candidates == None then SuccessfulRelogin(t, p, x) else TakeOver(t, p, x), None, named)
  {
    ReplaceableIs(t, x);
    if t.conns[p].candidates == None {
      FailureLetsIn(db, t, x, p, named);
    } else {
      FailureHandsOver(db, t, x, p, named);
    }
  }

  lemma {:induction false} FailureLetsIn(db: Db, t: Lobby, x: Ref, p: Ref, named: bool)
    requires Inv(db, t, Some(x), named) && x < |t.conns| && t.conns[x].phase == Gone && Waits(db, t, x, p, named)
    requires t.conns[x].pending == Some(p) && MayReplace(t, Some(x), p, x, named) && t.conns[p].candidates == None
    ensures Inv(db, SuccessfulRelogin(t, p, x), None, named)
  {
    ReloginKeeps(db, t, Some(x), p, x, named);
    ReloginServes(t, x, p);
    Release(db, SuccessfulRelogin(t, p, x), x, named);
  }

  lemma {:induction false} FailureHandsOver(db: Db, t: Lobby, x: Ref, p: Ref, named: bool)
    requires Inv(db, t, Some(x), named) && x < |t.conns| && t.conns[x].phase == Gone && Waits(db, t, x, p, named)
    requires t.conns[x].pending == Some(p) && MayEnter(t, Some(x), p) && t.conns[p].candidates.Some?
    requires t.conns[p].phase == Handshake ==> MayReplace(t, Some(x), p, x, named)
    ensures Inv(db, TakeOver(t, p, x), None, named)
  {
    TakeOverServes(t, x, p);
    if t.conns[p].phase == Handshake {
      TakeOverKeeps(db, t, Some(x), p, x, named);
    } else {
      GivenUp(db, t, x, p, named);
    }
    Release(db, TakeOver(t, p, x), x, named);
  }

  lemma ReloginServes(t: Lobby, x: Ref, p: Ref)
    requires ListedOk(t) && x < |t.conns| && p < |t.conns| && p != x && !t.conns[p].joined && t.conns[x].phase == Gone
    ensures
      var u := SuccessfulRelogin(t, p, x);
      && |u.conns| == |t.conns| && u.conns[p].joined && !Live(u, x) && u.conns[x].pending == t.conns[x].pending
  {
    StrikeIs(t.listed, x);
  }

  lemma TakeOverServes(t: Lobby, x: Ref, p: Ref)
    requires ListedOk(t) && x < |t.conns| && p < |t.conns| && p != x && !t.conns[p].joined && t.conns[x].phase == Gone
    ensures
      var u := TakeOver(t, p, x);
      && |u.conns| == |t.conns| && (t.conns[p].phase == Handshake ==> u.conns[p].joined)
      && !Live(u, x) && u.conns[x].pending == t.conns[x].pending
  {
    StrikeIs(t.listed, x);
  }

  // ---------------------------------------------------------------- newcomers

  lemma {:induction false} ConnectKeeps(db: Db, s: Lobby, c: Client, named: bool)
    requires Inv(db, s, None, named) && RecordOk(db, c) && c.pending == None && c.candidates == None
    ensures Inv(db, s.(conns := s.conns + [c]), None, named)
  {
    var t := s.(conns := s.conns + [c]);
    assert KeepsJoined(s, t);
    forall q | 0 <= q < |t.conns|
      ensures RecordOk(db, t.conns[q]) && AllCandidates(t, CandidatesOf(t.conns[q]), named)
    {
      if q < |s.conns| { CandidatesStay(s, t, CandidatesOf(s.conns[q]), named); }
    }
    assert forall x :: x in s.listed ==> At(t, x) == At(s, x);
    NewcomerKeepsLinks(db, s, t, named);
  }

  // Nobody waits for a newcomer, or on its behalf.
  lemma {:induction false} NewcomerKeepsLinks(db: Db, s: Lobby, t: Lobby, named: bool)
    requires ClientsOk(db, s, named) && LinksOk(db, s, None, named) && KeepsJoined(s, t) && |t.conns| == |s.conns| + 1
    requires forall q :: 0 <= q < |s.conns| ==> t.conns[q] == s.conns[q]
    requires t.conns[|s.conns|].pending == None
    requires forall x :: x in t.listed ==> x in s.listed || x == |s.conns|
    ensures LinksOk(db, t, None, named)
  {
    forall x: Ref, p: Ref | Link(t, None, x, p) ensures Link(s, None, x, p) && Waits(db, t, x, p, named) {
      assert x < |s.conns| && Link(s, None, x, p);
      assert Waits(db, s, x, p, named);
      LinkStays(db, s, None, t, x, p, named);
    }
    forall x: Ref ensures Accounted(t, None, x) {
      assert Accounted(s, None, x);
      if x < |s.conns| && s.conns[x].pending.Some? && Live(s, x) {
        assert Waits(db, s, x, s.conns[x].pending.value, named);
      }
    }
  }

  lemma {:induction false} IrcJoinKeeps(db: Db, s: Lobby, c: Client, named: bool)
    requires Inv(db, s, None, named) && RecordOk(db, c) && c.perm == Irc && c.joined && c.candidates == None
    requires forall x :: x in s.listed && At(s, x).name == c.name ==> At(s, x).perm != Irc
    ensures Inv(db, s.(conns := s.conns + [c], listed := s.listed + [|s.conns|]), None, named)
  {
    var u := s.(conns := s.conns + [c]);
    var t := u.(listed := s.listed + [|s.conns|]);
    ConnectKeeps(db, s, c, named);
    AppendKeepsList(u, t, |s.conns|);
    forall q | 0 <= q < |t.conns| ensures AllCandidates(t, CandidatesOf(t.conns[q]), named) {
      CandidatesStay(u, t, CandidatesOf(u.conns[q]), named);
    }
    NewcomerKeepsLinks(db, s, t, named);
  }

  lemma IrcStepKeeps(db: Db, s: Lobby, e: Event, named: bool)
    requires Inv(db, s, None, named) && (e.IrcJoin? || e.IrcLeave?)
    ensures Inv(db, Step(db, s, e), None, named)
  {
    LookupIs(s, s.listed, e.name, true);
    if e.IrcLeave? {
      if HasIrcClient(s, e.name).Some? { RemoveKeeps(db, s, None, HasIrcClient(s, e.name).value, named); }
    } else if HasIrcClient(s, e.name) == None {
      var c := NEW_CLIENT.(phase := Connected, perm := Irc, name := e.name, build := Ascii("IRC"), nonce := IRC_NONCE,
                           announced := true, attempt := ByLogin, joined := true);
      IrcJoinKeeps(db, s, c, named);
      assert Step(db, s, e) == s.(conns := s.conns + [c], listed := s.listed + [|s.conns|]);
    }
  }

  lemma PacketKeeps(db: Db, s: Lobby, r: Ref, cmd: Command, named: bool)
    requires GoodDb(db) && Inv(db, s, None, named) && Possible(s, Packet(r, cmd))
    requires named ==> Clean(s, Packet(r, cmd))
    ensures Inv(db, Step(db, s, Packet(r, cmd)), None, named)
  {
    AnswerKeeps(db, s, r, named);
    var t := Answer(db, s, r);
    if s.conns[r].pending.Some? {
      assert s.conns[r].joined && t.conns[r].phase == s.conns[r].phase == Connected;
    }
    HandleKeeps(db, t, r, cmd, named);
  }

  lemma {:induction false} ForgetKeeps(db: Db, s: Lobby, r: Ref, named: bool)
    requires Inv(db, s, None, named) && r < |s.conns| && s.conns[r].perm != Irc
    ensures Inv(db, Step(db, s, Forget(r)), None, named)
  {
    LeaveKeeps(db, s, r, named);
  }

  lemma {:induction false} KickKeeps(db: Db, s: Lobby, name: Text, named: bool)
    requires Inv(db, s, None, named)
    ensures Inv(db, Step(db, s, Kick(name)), None, named)
  {
    LookupIs(s, s.listed, name, false);
    if HasClient(s, name).Some? { LeaveKeeps(db, s, HasClient(s, name).value, named); }
  }

  lemma {:induction false} CountDownKeeps(db: Db, s: Lobby, r: Ref, named: bool)
    requires Inv(db, s, None, named) && r < |s.conns| && s.conns[r].timers > 0
    ensures Inv(db, Put(s, r, s.conns[r].(timers := s.conns[r].timers - 1)), None, named)
  {
    TouchKeeps(db, s, r, s.conns[r].(timers := s.conns[r].timers - 1), named);
  }

  lemma AnnounceIs(db: Db, s: Lobby, r: Ref)
    ensures
      Step(db, s, Announce(r)) ==
      if At(s, r).timers == 0 then s else AnnounceNow(Put(s, r, At(s, r).(timers := At(s, r).timers - 1)), r)
  {
  }

  lemma {:induction false} AnnounceStepKeeps(db: Db, s: Lobby, r: Ref, named: bool)
    requires Inv(db, s, None, named)
    ensures Inv(db, Step(db, s, Announce(r)), None, named)
  {
    AnnounceIs(db, s, r);
    if At(s, r).timers > 0 {
      assert r < |s.conns|;
      CountDownKeeps(db, s, r, named);
      var t := Put(s, r, At(s, r).(timers := At(s, r).timers - 1));
      AnnounceKeeps(db, t, r, named);
    }
  }

  // Every possible step keeps the core of the invariant, and if it is clean, the part about names too.
  lemma {:induction false} StepKeeps(db: Db, s: Lobby, e: Event, named: bool)
    requires GoodDb(db) && Inv(db, s, None, named) && Possible(s, e) && (named ==> Clean(s, e))
    ensures Inv(db, Step(db, s, e), None, named)
  {
    match e
    case Connect =>
      NoncesDiffer();
      ConnectKeeps(db, s, NEW_CLIENT, named);
    case Packet(r, cmd) => PacketKeeps(db, s, r, cmd, named);
    case StreamEnded(r) =>
      if s.conns[r].phase != Gone {
        assert Accounted(s, None, r);
        FailedPongKeeps(db, s, r, named);
      }
    case PingUnanswered(r) => FailedPongKeeps(db, s, r, named);
    case Announce(r) => AnnounceStepKeeps(db, s, r, named);
    case IrcJoin(_) => IrcStepKeeps(db, s, e, named);
    case IrcLeave(_) => IrcStepKeeps(db, s, e, named);
    case Timeout(r) => DisconnectKeeps(db, s, None, r, named);
    case Forget(r) => ForgetKeeps(db, s, r, named);
    case Kick(name) => KickKeeps(db, s, name, named);
  }

  // Hence the core holds after every run that can happen.
  lemma {:induction false} PossibleRunKeeps(db: Db, es: seq<Event>)
    requires GoodDb(db) && PossibleRun(db, es)
    ensures Inv(db, Run(db, es), None, false)
  {
    if es != [] {
      PossibleRunKeeps(db, es[..|es| - 1]);
      StepKeeps(db, Run(db, es[..|es| - 1]), es[|es| - 1], false);
    }
  }

  // After a valid run, so does the part about names.
  lemma {:induction false} RunKeeps(db: Db, es: seq<Event>)
    requires GoodDb(db) && ValidRun(db, es)
    ensures Inv(db, Run(db, es), None, true)
  {
    if es != [] {
      RunKeeps(db, es[..|es| - 1]);
      StepKeeps(db, Run(db, es[..|es| - 1]), es[|es| - 1], true);
    }
  }
}
