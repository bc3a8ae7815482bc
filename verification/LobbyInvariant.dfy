/** What the steps of the lobby keep. A core is kept by every step that is possible; a part about names is
    kept by the steps that are clean besides. Predicates and lemmas with a parameter `named` speak of the
    core alone when it is false, and of both parts when it is true. */
module LobbyInvariant {
  import opened GoText
  import opened LobbyModel

  // ---------------------------------------------------------------- the invariant

  ghost predicate VersionOk(v: int) {
    v == BUILD19 || v >= BUILD20
  }

  // Permissions beyond those of a guest are the ones the database grants for the name.
  ghost predicate PermOk(db: Db, c: Client) {
    c.perm == Unregistered || c.perm == Permissions(db, c.name)
  }

  ghost predicate RecordOk(db: Db, c: Client) {
    && (c.perm == Irc ==> c.joined && c.nonce == IRC_NONCE && c.pending == None && c.phase == Connected)
    && (c.perm != Irc ==> c.nonce != IRC_NONCE && (c.joined || c.phase != Gone ==> PermOk(db, c)))
    && (c.joined ==> (c.phase == Connected || c.phase == Gone) && c.candidates == None && c.attempt != NotYet)
    && (!c.joined ==> c.phase != Connected && c.pending == None)
    && (c.attempt == NotYet ==> c.perm == Unregistered)
    && (c.candidates.Some? ==> c.attempt == ByLogin)
    && |CandidatesOf(c)| + c.probes <= c.quota
    && (c.perm != Irc && (c.joined || c.phase != Gone) ==> VersionOk(c.version))
  }

  ghost predicate Candidate(s: Lobby, x: Ref) {
    x < |s.conns| && s.conns[x].joined && s.conns[x].perm != Irc
  }

  // Candidates are players; named: of different names.
  ghost predicate AllCandidates(s: Lobby, cs: seq<Ref>, named: bool) {
    && (forall k :: 0 <= k < |cs| ==> Candidate(s, cs[k]))
    && (named ==> DifferentNames(s, cs))
  }

  ghost predicate DifferentNames(s: Lobby, cs: seq<Ref>) {
    forall j, k :: 0 <= j < k < |cs| ==> At(s, cs[j]).name != At(s, cs[k]).name
  }

  ghost predicate Apart(s: Lobby, name: Text, cs: seq<Ref>) {
    forall k :: 0 <= k < |cs| ==> At(s, cs[k]).name != name
  }

  ghost predicate ClientsOk(db: Db, s: Lobby, named: bool) {
    forall r :: 0 <= r < |s.conns| ==> RecordOk(db, s.conns[r]) && AllCandidates(s, CandidatesOf(s.conns[r]), named)
  }

  ghost predicate ListedOk(s: Lobby) {
    && (forall i :: 0 <= i < |s.listed| ==> s.listed[i] < |s.conns| && s.conns[s.listed[i]].joined)
    && (forall i, j :: 0 <= i < j < |s.listed| ==> s.listed[i] != s.listed[j])
  }

  // No two players and no two IRC users share a name.
  ghost predicate UniqueNames(s: Lobby) {
    forall x, y :: x in s.listed && y in s.listed && x != y && At(s, x).name == At(s, y).name ==>
      (At(s, x).perm == Irc) != (At(s, y).perm == Irc)
  }

  ghost predicate Live(s: Lobby, x: Ref) {
    x in s.listed || At(s, x).phase != Gone
  }

  // p has been waiting for x and has not been let in. A client just being served is left out.
  ghost predicate Link(s: Lobby, busy: Option<Ref>, x: Ref, p: Ref) {
    x < |s.conns| && s.conns[x].pending == Some(p) && busy != Some(x) && !At(s, p).joined
  }

  // One who waits after a LOGIN has a candidate list (named: with other names than that of the client it
  // waits for), and it has given up its permissions unless it wants that very name. One who waits after
  // a legacy RELOGIN has no list and bears that name.
  ghost predicate Waits(db: Db, s: Lobby, x: Ref, p: Ref, named: bool) {
    p < |s.conns| &&
    var me, him := s.conns[p], At(s, x);
    && me.attempt != NotYet && me.perm != Irc && PermOk(db, me) && him.joined && him.perm != Irc
    && (me.candidates.Some? <==> me.attempt == ByLogin)
    && (me.candidates.Some? ==> me.perm == Unregistered || me.name == him.name)
    && (me.candidates == None ==> me.name == him.name && VersionOk(me.version))
    && (named ==> Apart(s, him.name, CandidatesOf(me)))
  }

  // Whoever waits for a client that is listed or connected has not been let in.
  ghost predicate Accounted(s: Lobby, busy: Option<Ref>, x: Ref) {
    x < |s.conns| && Live(s, x) && s.conns[x].pending.Some? && busy != Some(x) ==>
      Link(s, busy, x, s.conns[x].pending.value)
  }

  ghost predicate LinksOk(db: Db, s: Lobby, busy: Option<Ref>, named: bool) {
    && (forall x, p :: Link(s, busy, x, p) ==> Waits(db, s, x, p, named))
    && (forall x, y, p :: Link(s, busy, x, p) && Link(s, busy, y, p) ==> x == y)
    && (forall x: Ref :: Accounted(s, busy, x))
  }

  ghost predicate Basics(db: Db, s: Lobby, named: bool) {
    ClientsOk(db, s, named) && ListedOk(s) && (named ==> UniqueNames(s))
  }

  ghost predicate Inv(db: Db, s: Lobby, busy: Option<Ref>, named: bool) {
    Basics(db, s, named) && LinksOk(db, s, busy, named) && (named ==> s.warnings == 0)
  }

  // ---------------------------------------------------------------- what lasts

  // Whoever has joined stays so, under the same name and with the same permissions.
  ghost predicate KeepsJoined(s: Lobby, t: Lobby) {
    |s.conns| <= |t.conns| &&
    forall q :: 0 <= q < |s.conns| && s.conns[q].joined ==>
      t.conns[q].joined && t.conns[q].name == s.conns[q].name && t.conns[q].perm == s.conns[q].perm
  }

  lemma CandidatesStay(s: Lobby, t: Lobby, cs: seq<Ref>, named: bool)
    requires KeepsJoined(s, t) && AllCandidates(s, cs, named)
    ensures AllCandidates(t, cs, named)
  {
    forall k | 0 <= k < |cs| ensures Candidate(t, cs[k]) && At(t, cs[k]).name == At(s, cs[k]).name {
      assert Candidate(s, cs[k]);
    }
  }

  lemma {:induction false} WaitsStay(db: Db, s: Lobby, t: Lobby, x: Ref, p: Ref, named: bool)
    requires KeepsJoined(s, t) && Waits(db, s, x, p, named)
    requires p < |t.conns| && t.conns[p] == s.conns[p] && x < |s.conns|
    requires AllCandidates(s, CandidatesOf(s.conns[p]), named)
    ensures Waits(db, t, x, p, named)
  {
    var cs := CandidatesOf(s.conns[p]);
    forall k | 0 <= k < |cs| ensures At(t, cs[k]).name == At(s, cs[k]).name {
      assert Candidate(s, cs[k]);
    }
  }

  // ---------------------------------------------------------------- changing one record

  ghost predicate SameIdentity(c: Client, d: Client) {
    c.joined == d.joined && (c.joined ==> c.perm == d.perm && c.name == d.name)
  }

  lemma {:induction false} PutKeepsBasics(db: Db, s: Lobby, r: Ref, c: Client, named: bool)
    requires Basics(db, s, named) && r < |s.conns| && RecordOk(db, c) && SameIdentity(s.conns[r], c)
    requires AllCandidates(s, CandidatesOf(c), named)
    ensures Basics(db, Put(s, r, c), named) && KeepsJoined(s, Put(s, r, c))
  {
    var t := Put(s, r, c);
    forall q | 0 <= q < |t.conns|
      ensures RecordOk(db, t.conns[q]) && AllCandidates(t, CandidatesOf(t.conns[q]), named)
    {
      if q != r { assert t.conns[q] == s.conns[q]; }
      CandidatesStay(s, t, CandidatesOf(t.conns[q]), named);
    }
    forall i | 0 <= i < |t.listed| ensures t.listed[i] < |t.conns| && t.conns[t.listed[i]].joined {
      assert s.conns[s.listed[i]].joined;
    }
    if named { PutKeepsNames(s, r, c); }
  }

  lemma PutKeepsNames(s: Lobby, r: Ref, c: Client)
    requires ListedOk(s) && UniqueNames(s) && r < |s.conns| && SameIdentity(s.conns[r], c)
    ensures UniqueNames(Put(s, r, c))
  {
    var t := Put(s, r, c);
    forall x | x in t.listed ensures At(t, x).name == At(s, x).name && At(t, x).perm == At(s, x).perm {
      assert s.conns[x].joined;
    }
  }

  // A link of s that is one of t still waits.
  lemma LinkStays(db: Db, s: Lobby, busy: Option<Ref>, t: Lobby, x: Ref, p: Ref, named: bool)
    requires ClientsOk(db, s, named) && LinksOk(db, s, busy, named) && KeepsJoined(s, t)
    requires Link(s, busy, x, p) && p < |t.conns| && (p < |s.conns| ==> t.conns[p] == s.conns[p])
    ensures Waits(db, t, x, p, named)
  {
    assert Waits(db, s, x, p, named);
    WaitsStay(db, s, t, x, p, named);
  }

  // A client that has not joined changes; whoever is linked to it must still be waited for properly.
  lemma {:induction false} UnjoinedPut(db: Db, s: Lobby, busy: Option<Ref>, r: Ref, c: Client, named: bool)
    requires Inv(db, s, busy, named) && r < |s.conns| && RecordOk(db, c) && AllCandidates(s, CandidatesOf(c), named)
    requires !s.conns[r].joined && !c.joined
    requires forall x :: Link(s, busy, x, r) ==> Waits(db, Put(s, r, c), x, r, named)
    ensures Inv(db, Put(s, r, c), busy, named)
  {
    PutKeepsBasics(db, s, r, c, named);
    assert RecordOk(db, s.conns[r]);
    UnjoinedPutLinks(db, s, busy, r, c, named);
  }

  lemma {:induction false} UnjoinedPutLinks(db: Db, s: Lobby, busy: Option<Ref>, r: Ref, c: Client, named: bool)
    requires ClientsOk(db, s, named) && LinksOk(db, s, busy, named) && r < |s.conns| && KeepsJoined(s, Put(s, r, c))
    requires !s.conns[r].joined && !c.joined && s.conns[r].pending == None && c.pending == None
    requires forall x :: Link(s, busy, x, r) ==> Waits(db, Put(s, r, c), x, r, named)
    ensures LinksOk(db, Put(s, r, c), busy, named)
  {
    var t := Put(s, r, c);
    forall x, p | Link(t, busy, x, p) ensures Link(s, busy, x, p) && Waits(db, t, x, p, named) {
      assert Link(s, busy, x, p);
      assert Waits(db, s, x, p, named);
      if p != r { LinkStays(db, s, busy, t, x, p, named); }
    }
    forall x: Ref ensures Accounted(t, busy, x) {
      assert Accounted(s, busy, x);
    }
  }

  // The client just being served has been dealt with.
  lemma {:induction false} Release(db: Db, t: Lobby, x: Ref, named: bool)
    requires LinksOk(db, t, Some(x), named) && x < |t.conns|
    requires t.conns[x].pending.Some? ==> !Live(t, x)
    requires forall p :: Link(t, None, x, p) ==> Waits(db, t, x, p, named) && forall y :: !Link(t, Some(x), y, p)
    ensures LinksOk(db, t, None, named)
  {
    forall y, p | Link(t, None, y, p) ensures Waits(db, t, y, p, named) && (y == x || Link(t, Some(x), y, p)) {
      assert y != x ==> Link(t, Some(x), y, p);
    }
    forall y, z, p | Link(t, None, y, p) && Link(t, None, z, p) ensures y == z {
      assert y != x ==> Link(t, Some(x), y, p);
      assert z != x ==> Link(t, Some(x), z, p);
    }
    forall y: Ref ensures Accounted(t, None, y) {
      assert Accounted(t, Some(x), y);
    }
  }

  // A client that has joined changes, but not its identity, and nobody new waits for it.
  lemma {:induction false} JoinedPut(db: Db, s: Lobby, busy: Option<Ref>, r: Ref, c: Client, named: bool)
    requires Inv(db, s, busy, named) && r < |s.conns| && RecordOk(db, c)
    requires s.conns[r].joined && SameIdentity(s.conns[r], c)
    requires c.pending == s.conns[r].pending || c.pending == None
    requires c.phase == s.conns[r].phase || c.phase == Gone
    ensures Inv(db, Put(s, r, c), busy, named)
    ensures busy == Some(r) && c.pending == None ==> Inv(db, Put(s, r, c), None, named)
  {
    var t := Put(s, r, c);
    PutKeepsBasics(db, s, r, c, named);
    JoinedPutLinks(db, s, busy, r, c, named);
    if busy == Some(r) && c.pending == None { Release(db, t, r, named); }
  }

  lemma {:induction false} JoinedPutLinks(db: Db, s: Lobby, busy: Option<Ref>, r: Ref, c: Client, named: bool)
    requires ClientsOk(db, s, named) && LinksOk(db, s, busy, named) && r < |s.conns| && KeepsJoined(s, Put(s, r, c))
    requires s.conns[r].joined && c.joined
    requires c.pending == s.conns[r].pending || c.pending == None
    requires c.phase == s.conns[r].phase || c.phase == Gone
    ensures LinksOk(db, Put(s, r, c), busy, named)
  {
    var t := Put(s, r, c);
    forall x, p | Link(t, busy, x, p) ensures Link(s, busy, x, p) && Waits(db, t, x, p, named) {
      assert Link(s, busy, x, p);
      assert Waits(db, s, x, p, named);
      LinkStays(db, s, busy, t, x, p, named);
    }
    forall x: Ref ensures Accounted(t, busy, x) {
      assert Accounted(s, busy, x);
    }
  }

  // p starts to wait for x.
  lemma {:induction false} LinkPut(db: Db, s: Lobby, busy: Option<Ref>, x: Ref, p: Ref, named: bool)
    requires Inv(db, s, busy, named) && x < |s.conns| && s.conns[x].joined && s.conns[x].perm != Irc
    requires Waits(db, s, x, p, named) && !s.conns[p].joined && forall y :: !Link(s, busy, y, p)
    ensures Inv(db, Put(s, x, s.conns[x].(pending := Some(p))), busy, named)
  {
    var c := s.conns[x].(pending := Some(p));
    var t := Put(s, x, c);
    PutKeepsBasics(db, s, x, c, named);
    forall y, q | Link(t, busy, y, q) ensures Waits(db, t, y, q, named) && (y == x || (Link(s, busy, y, q) && q != p)) {
      if y == x {
        WaitsStay(db, s, t, x, p, named);
      } else {
        assert Link(s, busy, y, q) && Waits(db, s, y, q, named);
        LinkStays(db, s, busy, t, y, q, named);
      }
    }
    forall y: Ref ensures Accounted(t, busy, y)
    {
      assert Accounted(s, busy, y);
    }
  }

  // ---------------------------------------------------------------- leaving the list

  lemma {:induction false} StrikeIs(listed: seq<Ref>, r: Ref)
    requires forall i, j :: 0 <= i < j < |listed| ==> listed[i] != listed[j]
    ensures forall x :: x in Strike(listed, r) <==> x in listed && x != r
    ensures forall i, j :: 0 <= i < j < |Strike(listed, r)| ==> Strike(listed, r)[i] != Strike(listed, r)[j]
  {
    if listed != [] {
      assert listed == [listed[0]] + listed[1..];
      assert listed[0] !in listed[1..];
      StrikeIs(listed[1..], r);
      var rest := Strike(listed[1..], r);
      assert listed[0] != r ==> Strike(listed, r) == [listed[0]] + rest;
    }
  }

  lemma {:induction false} NamesakesNone(s: Lobby, listed: seq<Ref>, name: Text, irc: bool)
    requires forall x :: x in listed && At(s, x).name == name ==> (At(s, x).perm == Irc) != irc
    ensures Namesakes(s, listed, name, irc) == 0
  {
    if listed != [] {
      assert listed[|listed| - 1] in listed;
      NamesakesNone(s, listed[..|listed| - 1], name, irc);
    }
  }

  lemma {:induction false} NamesakesAtMostOne(s: Lobby, listed: seq<Ref>, name: Text, irc: bool)
    requires forall i, j :: 0 <= i < j < |listed| ==> listed[i] != listed[j]
    requires forall x, y :: x in listed && y in listed && x != y && At(s, x).name == At(s, y).name ==>
      (At(s, x).perm == Irc) != (At(s, y).perm == Irc)
    ensures Namesakes(s, listed, name, irc) <= 1
  {
    if listed != [] {
      var init, x := listed[..|listed| - 1], listed[|listed| - 1];
      assert forall y :: y in init ==> y in listed && y != x;
      if At(s, x).name == name && (At(s, x).perm == Irc) == irc {
        NamesakesNone(s, init, name, irc);
      } else {
        NamesakesAtMostOne(s, init, name, irc);
      }
    }
  }

  // With unique names there is nothing to warn of.
  lemma NoWarning(s: Lobby, r: Ref)
    requires ListedOk(s) && UniqueNames(s)
    ensures RemoveClient(s, r) == RemoveListed(s, r)
  {
    NamesakesAtMostOne(s, s.listed, At(s, r).name, true);
    NamesakesAtMostOne(s, s.listed, At(s, r).name, false);
  }

  lemma RemoveKeepsBasics(db: Db, s: Lobby, r: Ref, named: bool)
    requires Basics(db, s, named)
    ensures Basics(db, RemoveListed(s, r), named) && KeepsJoined(s, RemoveListed(s, r))
  {
    if r in s.listed {
      var u := Put(s, r, Delayed(At(s, r)));
      PutKeepsBasics(db, s, r, Delayed(At(s, r)), named);
      StrikeIs(s.listed, r);
      var t := RemoveListed(s, r);
      assert t == u.(listed := Strike(s.listed, r));
      assert forall x :: At(t, x) == At(u, x);
      forall i | 0 <= i < |t.listed| ensures t.listed[i] < |t.conns| && t.conns[t.listed[i]].joined {
        assert t.listed[i] in u.listed;
      }
      forall q | 0 <= q < |t.conns| ensures AllCandidates(t, CandidatesOf(t.conns[q]), named) {
        CandidatesStay(u, t, CandidatesOf(u.conns[q]), named);
      }
    }
  }

  lemma {:induction false} RemoveKeepsLinks(db: Db, s: Lobby, busy: Option<Ref>, r: Ref, named: bool)
    requires Inv(db, s, busy, named) && KeepsJoined(s, RemoveListed(s, r))
    requires forall x :: x in RemoveListed(s, r).listed ==> x in s.listed
    ensures LinksOk(db, RemoveListed(s, r), busy, named)
    ensures forall x, p :: Link(RemoveListed(s, r), busy, x, p) <==> Link(s, busy, x, p)
  {
    var t := RemoveListed(s, r);
    assert forall x, p :: Link(t, busy, x, p) <==> Link(s, busy, x, p);
    forall x, p | Link(t, busy, x, p) ensures Waits(db, t, x, p, named) {
      assert Link(s, busy, x, p) && Waits(db, s, x, p, named);
      WaitsThroughRemoval(db, s, r, x, p, named);
    }
    forall x: Ref ensures Accounted(t, busy, x) {
      assert Accounted(s, busy, x);
    }
  }

  lemma {:induction false} WaitsThroughRemoval(db: Db, s: Lobby, r: Ref, x: Ref, p: Ref, named: bool)
    requires ListedOk(s) && ClientsOk(db, s, named) && Waits(db, s, x, p, named) && !s.conns[p].joined && x < |s.conns|
    requires KeepsJoined(s, RemoveListed(s, r))
    ensures Waits(db, RemoveListed(s, r), x, p, named)
  {
    assert r in s.listed ==> s.conns[r].joined;
    WaitsStay(db, s, RemoveListed(s, r), x, p, named);
  }

  // Warnings matter to the part about names only.
  lemma {:induction false} WarningsKeep(db: Db, s: Lobby, busy: Option<Ref>, n: nat, named: bool)
    requires Basics(db, s, named) && LinksOk(db, s, busy, named)
    ensures
      var t := s.(warnings := n);
      && Basics(db, t, named) && LinksOk(db, t, busy, named)
      && forall x, p :: Link(t, busy, x, p) <==> Link(s, busy, x, p)
  {
    var t := s.(warnings := n);
    assert forall x :: At(t, x) == At(s, x);
    assert KeepsJoined(s, t);
    forall q | 0 <= q < |t.conns| ensures AllCandidates(t, CandidatesOf(t.conns[q]), named) {
      CandidatesStay(s, t, CandidatesOf(s.conns[q]), named);
    }
    forall x: Ref, p: Ref | Link(t, busy, x, p) ensures Link(s, busy, x, p) && Waits(db, t, x, p, named) {
      assert Link(s, busy, x, p);
      assert Waits(db, s, x, p, named);
      LinkStays(db, s, busy, t, x, p, named);
    }
    forall x: Ref ensures Accounted(t, busy, x) {
      assert Accounted(s, busy, x);
    }
  }

  lemma {:induction false} RemoveKeeps(db: Db, s: Lobby, busy: Option<Ref>, r: Ref, named: bool)
    requires Inv(db, s, busy, named)
    ensures Inv(db, RemoveClient(s, r), busy, named)
    ensures forall x :: x in RemoveClient(s, r).listed <==> x in s.listed && x != r
    ensures forall x, p :: Link(RemoveClient(s, r), busy, x, p) <==> Link(s, busy, x, p)
    ensures r in s.listed ==> RemoveClient(s, r).conns == s.conns[r := Delayed(s.conns[r])]
    ensures r !in s.listed ==> RemoveClient(s, r).conns == s.conns && RemoveClient(s, r).listed == s.listed
  {
    if named { NoWarning(s, r); }
    RemoveKeepsBasics(db, s, r, named);
    StrikeIs(s.listed, r);
    RemoveKeepsLinks(db, s, busy, r, named);
    WarningsKeep(db, RemoveListed(s, r), busy, RemoveClient(s, r).warnings, named);
  }

  // ---------------------------------------------------------------- entering the list

  ghost predicate NameFree(s: Lobby, name: Text) {
    forall x :: x in s.listed && At(s, x).name == name ==> At(s, x).perm == Irc
  }

  // Ready to be listed.
  ghost predicate MayEnter(s: Lobby, busy: Option<Ref>, c: Ref) {
    && c < |s.conns| && !s.conns[c].joined && s.conns[c].attempt != NotYet && s.conns[c].perm != Irc
    && (forall x :: !Link(s, busy, x, c))
  }

  lemma EnterKeepsBasics(db: Db, s: Lobby, c: Ref, named: bool)
    requires Basics(db, s, named) && c < |s.conns| && !s.conns[c].joined && s.conns[c].attempt != NotYet
    requires s.conns[c].perm != Irc && PermOk(db, s.conns[c])
    requires VersionOk(s.conns[c].version) && (named ==> NameFree(s, s.conns[c].name))
    ensures Basics(db, Enter(s, c), named) && KeepsJoined(s, Enter(s, c))
  {
    var t := Enter(s, c);
    var me := s.conns[c].(timers := s.conns[c].timers + 1, joined := true, phase := Connected, candidates := None);
    assert t.conns == s.conns[c := me] && t.listed == s.listed + [c];
    forall q | 0 <= q < |t.conns|
      ensures RecordOk(db, t.conns[q]) && AllCandidates(t, CandidatesOf(t.conns[q]), named)
    {
      if q != c {
        assert t.conns[q] == s.conns[q];
        CandidatesStay(s, t, CandidatesOf(t.conns[q]), named);
      }
    }
    AppendKeepsList(s, t, c);
    if named { AppendKeepsNames(s, t, c); }
  }

  lemma AppendKeepsNames(s: Lobby, t: Lobby, c: Ref)
    requires UniqueNames(s) && t.listed == s.listed + [c] && forall x :: x in s.listed ==> At(t, x) == At(s, x)
    requires
      forall x :: x in s.listed && At(s, x).name == At(t, c).name ==> (At(s, x).perm == Irc) != (At(t, c).perm == Irc)
    ensures UniqueNames(t)
  {
  }

  lemma AppendKeepsList(s: Lobby, t: Lobby, c: Ref)
    requires ListedOk(s) && c < |t.conns| && c !in s.listed && t.listed == s.listed + [c]
    requires |s.conns| <= |t.conns| && (forall x :: x in s.listed ==> At(t, x) == At(s, x)) && t.conns[c].joined
    ensures ListedOk(t)
  {
    forall i | 0 <= i < |t.listed| ensures t.listed[i] < |t.conns| && t.conns[t.listed[i]].joined {
      if i < |s.listed| {
        assert t.listed[i] == s.listed[i] && s.listed[i] in s.listed;
        assert At(t, s.listed[i]) == At(s, s.listed[i]);
      }
    }
  }

  lemma {:induction false} EnterKeepsLinks(db: Db, s: Lobby, busy: Option<Ref>, c: Ref, t: Lobby, named: bool)
    requires ClientsOk(db, s, named) && LinksOk(db, s, busy, named) && MayEnter(s, busy, c) && KeepsJoined(s, t)
    requires |t.conns| == |s.conns| && t.listed == s.listed + [c] && t.conns[c].joined && t.conns[c].pending == None
    requires forall x :: 0 <= x < |s.conns| && x != c ==> t.conns[x] == s.conns[x]
    ensures LinksOk(db, t, busy, named)
  {
    forall x, p | Link(t, busy, x, p) ensures Link(s, busy, x, p) && Waits(db, t, x, p, named) {
      assert x != c && p != c;
      assert Link(s, busy, x, p);
      assert Waits(db, s, x, p, named);
      LinkStays(db, s, busy, t, x, p, named);
    }
    forall x: Ref ensures Accounted(t, busy, x) {
      assert Accounted(s, busy, x);
      assert x < |s.conns| && s.conns[x].pending.Some? && busy != Some(x) ==> !Link(s, busy, x, c);
    }
  }

  lemma {:induction false} EnterKeeps(db: Db, s: Lobby, busy: Option<Ref>, c: Ref, named: bool)
    requires Inv(db, s, busy, named) && MayEnter(s, busy, c)
    requires PermOk(db, s.conns[c]) && VersionOk(s.conns[c].version) && (named ==> NameFree(s, s.conns[c].name))
    ensures Inv(db, Enter(s, c), busy, named)
  {
    EnterKeepsBasics(db, s, c, named);
    var t := Enter(s, c);
    assert RecordOk(db, s.conns[c]);
    EnterKeepsLinks(db, s, busy, c, t, named);
  }

  lemma {:induction false} DisconnectKeeps(db: Db, s: Lobby, busy: Option<Ref>, r: Ref, named: bool)
    requires Inv(db, s, busy, named) && r < |s.conns| && s.conns[r].perm != Irc
    ensures Inv(db, Disconnect(s, r), busy, named)
    ensures forall x, p :: Link(Disconnect(s, r), busy, x, p) <==> Link(s, busy, x, p)
  {
    var c := s.conns[r].(phase := Gone);
    assert forall x, p :: Link(Disconnect(s, r), busy, x, p) <==> Link(s, busy, x, p);
    if s.conns[r].joined {
      JoinedPut(db, s, busy, r, c, named);
    } else {
      assert AllCandidates(s, CandidatesOf(s.conns[r]), named);
      forall x | Link(s, busy, x, r) ensures Waits(db, Put(s, r, c), x, r, named) {
        WaitsAlike(db, s, x, r, c, named);
      }
      UnjoinedPut(db, s, busy, r, c, named);
    }
  }

  // The one who waits changes only its phase.
  lemma {:induction false} WaitsAlike(db: Db, s: Lobby, x: Ref, p: Ref, c: Client, named: bool)
    requires Waits(db, s, x, p, named) && x < |s.conns| && !s.conns[p].joined
    requires c == s.conns[p].(phase := c.phase)
    requires AllCandidates(s, CandidatesOf(s.conns[p]), named)
    ensures Waits(db, Put(s, p, c), x, p, named)
  {
    var t, cs := Put(s, p, c), CandidatesOf(s.conns[p]);
    assert x != p;
    forall k | 0 <= k < |cs| ensures At(t, cs[k]).name == At(s, cs[k]).name {
      assert Candidate(s, cs[k]);
    }
  }

  lemma {:induction false} LoginDoneKeeps(db: Db, s: Lobby, busy: Option<Ref>, c: Ref, named: bool)
    requires Inv(db, s, busy, named) && MayEnter(s, busy, c) && (named ==> NameFree(s, s.conns[c].name))
    ensures Inv(db, LoginDone(s, c), busy, named)
  {
    if s.conns[c].phase == Handshake {
      EnterKeeps(db, s, busy, c, named);
    } else {
      DisconnectKeeps(db, s, busy, c, named);
    }
  }

  // ---------------------------------------------------------------- replacing an old connection

  // c may step into the place of prior; named: prior is still listed, or its name is nobody's any more.
  ghost predicate MayReplace(s: Lobby, busy: Option<Ref>, c: Ref, prior: Ref, named: bool) {
    && MayEnter(s, busy, c) && Candidate(s, prior)
    && (named ==> prior in s.listed || NameFree(s, s.conns[prior].name))
  }

  lemma ReplacedMayEnter(db: Db, s: Lobby, busy: Option<Ref>, c: Ref, prior: Ref, named: bool)
    requires Inv(db, s, busy, named) && MayReplace(s, busy, c, prior, named) && s.conns[c].name == s.conns[prior].name
    ensures
      var t := RemoveClient(s, prior);
      && Inv(db, t, busy, named) && MayEnter(t, busy, c) && At(t, c) == At(s, c) && prior !in t.listed
      && (named ==> NameFree(t, s.conns[c].name))
  {
    var t := RemoveClient(s, prior);
    RemoveKeeps(db, s, busy, prior, named);
    assert forall x :: x != prior ==> At(t, x) == At(s, x);
    if named {
      forall x | x in t.listed && At(t, x).name == s.conns[c].name ensures At(t, x).perm == Irc {
        assert x in s.listed && x != prior;
      }
    }
  }

  // c takes the name of prior, which it may then replace.
  lemma {:induction false} RenameKeeps(db: Db, s: Lobby, busy: Option<Ref>, c: Ref, prior: Ref, named: bool)
    requires Inv(db, s, busy, named) && MayEnter(s, busy, c) && Candidate(s, prior) && s.conns[c].candidates.Some?
    requires s.conns[c].perm == Unregistered || s.conns[c].name == s.conns[prior].name
    ensures
      var t := Put(s, c, s.conns[c].(name := s.conns[prior].name, game := s.conns[prior].game));
      && Inv(db, t, busy, named) && MayEnter(t, busy, c) && Candidate(t, prior) && t.conns[prior] == s.conns[prior]
      && (MayReplace(s, busy, c, prior, named) ==> MayReplace(t, busy, c, prior, named))
  {
    var me := s.conns[c].(name := s.conns[prior].name, game := s.conns[prior].game);
    var t := Put(s, c, me);
    assert AllCandidates(s, CandidatesOf(s.conns[c]), named);
    assert RecordOk(db, s.conns[c]);
    UnjoinedPut(db, s, busy, c, me, named);
    forall x ensures !Link(t, busy, x, c) {
      assert !Link(s, busy, x, c);
    }
    assert c !in s.listed;
  }

  lemma {:induction false} TakeOverKeeps(db: Db, s: Lobby, busy: Option<Ref>, c: Ref, prior: Ref, named: bool)
    requires Inv(db, s, busy, named) && MayReplace(s, busy, c, prior, named) && s.conns[c].candidates.Some?
    requires s.conns[c].perm == Unregistered || s.conns[c].name == s.conns[prior].name
    ensures Inv(db, TakeOver(s, c, prior), busy, named)
  {
    RenameKeeps(db, s, busy, c, prior, named);
    var t := Put(s, c, s.conns[c].(name := s.conns[prior].name, game := s.conns[prior].game));
    ReplacedMayEnter(db, t, busy, c, prior, named);
    LoginDoneKeeps(db, RemoveClient(t, prior), busy, c, named);
  }

  lemma {:induction false} ReloginKeeps(db: Db, s: Lobby, busy: Option<Ref>, c: Ref, prior: Ref, named: bool)
    requires Inv(db, s, busy, named) && MayReplace(s, busy, c, prior, named)
    requires s.conns[c].name == s.conns[prior].name && s.conns[c].candidates == None
    requires PermOk(db, s.conns[c]) && VersionOk(s.conns[c].version)
    ensures Inv(db, SuccessfulRelogin(s, c, prior), busy, named)
  {
    ReplacedMayEnter(db, s, busy, c, prior, named);
    EnterKeeps(db, RemoveClient(s, prior), busy, c, named);
    assert SuccessfulRelogin(s, c, prior) == Enter(RemoveClient(s, prior), c);
  }
}
