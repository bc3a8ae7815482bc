/** The reply to CLIENTS (wlms/client.go): an array that is sized in one pass over the client list and
    filled in a second one. A slot left empty would end the server in packet.New. */
module ClientsReply {
  import opened GoText
  import opened PacketCodec
  import opened LobbyModel
  import LobbyInvariant
  import LobbySteps

  // An element of the reply; None is an interface value that was never set.
  type Slot = Option<Field>

  function PermText(p: Perm): Text {
    match p
    case Unregistered => Ascii("UNREGISTERED")
    case Registered => Ascii("REGISTERED")
    case Superuser => Ascii("SUPERUSER")
    case Irc => Ascii("IRC")
  }

  // Whether the reply to r mentions x, when x is listed.
  predicate Mentioned(s: Lobby, r: Ref, x: Ref) {
    && At(s, x).phase == Connected
    && !(At(s, r).version == BUILD19 && At(s, x).perm == Irc)
    && (At(s, x).announced || x == r)
  }

  function NrFields(version: int): nat {
    if version < BUILD20 then 5 else 4
  }

  function FourFields(x: Client): (row: seq<Slot>)
    ensures |row| == 4 && None !in row
  {
    var game := if x.game.Some? then x.game.value else [];
    [Some(Str(x.name)), Some(Str(x.build)), Some(Str(game)), Some(Str(PermText(x.perm)))]
  }

  // The slots for x in a reply to a client of the given version.
  function Row(x: Client, version: int): (row: seq<Slot>)
    ensures |row| == NrFields(version)
  {
    var four := FourFields(x);
    if version < 4 then four + [Some(Str([]))] else if version < BUILD20 then four + [None] else four
  }

  function Count(s: Lobby, r: Ref, listed: seq<Ref>): nat {
    if listed == [] then 0
    else Count(s, r, listed[..|listed| - 1]) + if Mentioned(s, r, listed[|listed| - 1]) then 1 else 0
  }

  function Rows(s: Lobby, r: Ref, listed: seq<Ref>): seq<Slot> {
    if listed == [] then []
    else
      var x := listed[|listed| - 1];
      Rows(s, r, listed[..|listed| - 1]) + if Mentioned(s, r, x) then Row(At(s, x), At(s, r).version) else []
  }

  function Reply(s: Lobby, r: Ref): seq<Slot> {
    [Some(Str(Ascii("CLIENTS"))), Some(Num(Count(s, r, s.listed)))] + Rows(s, r, s.listed)
  }

  lemma {:induction false} RowsFit(s: Lobby, r: Ref, listed: seq<Ref>, i: nat)
    requires i < |listed|
    ensures Rows(s, r, listed[..i + 1]) ==
      Rows(s, r, listed[..i]) + if Mentioned(s, r, listed[i]) then Row(At(s, listed[i]), At(s, r).version) else []
    ensures |Rows(s, r, listed[..i + 1])| <= |Rows(s, r, listed)|
    decreases |listed| - i
  {
    assert listed[..i + 1][..i] == listed[..i];
    if i + 1 == |listed| {
      assert listed[..i + 1] == listed;
    } else {
      RowsFit(s, r, listed, i + 1);
    }
  }

  lemma {:induction false} RowsAreCounted(s: Lobby, r: Ref, listed: seq<Ref>)
    ensures |Rows(s, r, listed)| == NrFields(At(s, r).version) * Count(s, r, listed)
  {
    if listed != [] { RowsAreCounted(s, r, listed[..|listed| - 1]); }
  }

  // The first pass.
  method CountClients(s: Lobby, r: Ref) returns (nrClients: nat)
    ensures nrClients == Count(s, r, s.listed)
  {
    nrClients := 0;
    var i := 0;
    while i < |s.listed|
      invariant i <= |s.listed| && nrClients == Count(s, r, s.listed[..i])
    {
      if Mentioned(s, r, s.listed[i]) { nrClients := nrClients + 1; }
      i := i + 1;
      assert s.listed[..i][..i - 1] == s.listed[..i - 1];
    }
    assert s.listed[..i] == s.listed;
  }

  // From n on nothing has been written.
  ghost predicate BlankFrom(data: array<Slot>, n: int)
    reads data
  {
    forall k :: 0 <= n <= k < data.Length ==> data[k] == None
  }

  method WriteSlot(data: array<Slot>, n: nat, slot: Slot)
    requires n < data.Length && BlankFrom(data, n)
    modifies data
    ensures data[..n + 1] == old(data[..n]) + [slot] && BlankFrom(data, n + 1)
  {
    data[n] := slot;
  }

  // Four fields, and an empty fifth one for versions before 4.
  method WriteRow(data: array<Slot>, n: nat, x: Client, version: int)
    requires n + NrFields(version) <= data.Length && BlankFrom(data, n)
    modifies data
    ensures data[..n + NrFields(version)] == old(data[..n]) + Row(x, version)
    ensures BlankFrom(data, n + NrFields(version))
  {
    WriteSlot(data, n, Some(Str(x.name)));
    WriteSlot(data, n + 1, Some(Str(x.build)));
    WriteSlot(data, n + 2, Some(Str(if x.game.Some? then x.game.value else [])));
    WriteSlot(data, n + 3, Some(Str(PermText(x.perm))));
    assert data[..n + 4] == old(data[..n]) + FourFields(x);
    if version < 4 {
      WriteSlot(data, n + 4, Some(Str([])));
    } else if version < BUILD20 {
      assert data[..n + 5] == data[..n + 4] + [None];
    }
  }

  // The row for x, if the reply mentions it.
  function RowIf(s: Lobby, r: Ref, x: Ref): seq<Slot> {
    if Mentioned(s, r, x) then Row(At(s, x), At(s, r).version) else []
  }

  method WriteMention(s: Lobby, r: Ref, data: array<Slot>, n: nat, x: Ref) returns (n': nat)
    requires n + |RowIf(s, r, x)| <= data.Length && BlankFrom(data, n)
    modifies data
    ensures n' == n + |RowIf(s, r, x)| && data[..n'] == old(data[..n]) + RowIf(s, r, x) && BlankFrom(data, n')
  {
    n' := n;
    if Mentioned(s, r, x) {
      WriteRow(data, n, At(s, x), At(s, r).version);
      n' := n + NrFields(At(s, r).version);
    }
  }

  lemma OneMoreRow(s: Lobby, r: Ref, head: seq<Slot>, i: nat)
    requires i < |s.listed|
    ensures head + Rows(s, r, s.listed[..i]) + RowIf(s, r, s.listed[i]) == head + Rows(s, r, s.listed[..i + 1])
    ensures |Rows(s, r, s.listed[..i])| + |RowIf(s, r, s.listed[i])| <= |Rows(s, r, s.listed)|
  {
    RowsFit(s, r, s.listed, i);
  }

  // The second pass fills the rest of the array, and never writes beyond its end.
  method WriteRows(s: Lobby, r: Ref, data: array<Slot>)
    requires data.Length == 2 + |Rows(s, r, s.listed)| && BlankFrom(data, 2)
    modifies data
    ensures data[..] == old(data[..2]) + Rows(s, r, s.listed)
  {
    var n, i := 2, 0;
    ghost var head := data[..2];
    while i < |s.listed|
      invariant i <= |s.listed| && n == 2 + |Rows(s, r, s.listed[..i])| <= data.Length
      invariant data[..n] == head + Rows(s, r, s.listed[..i]) && BlankFrom(data, n)
    {
      OneMoreRow(s, r, head, i);
      n := WriteMention(s, r, data, n, s.listed[i]);
      i := i + 1;
    }
    assert s.listed[..i] == s.listed && data[..n] == data[..];
  }

  // The two passes agree.
  method HandleClients(s: Lobby, r: Ref) returns (data: array<Slot>)
    ensures data[..] == Reply(s, r)
  {
    var nFields := 4;
    if At(s, r).version < BUILD20 { nFields := 5; }
    var nrClients := CountClients(s, r);
    RowsAreCounted(s, r, s.listed);
    data := new Slot[2 + nrClients * nFields](_ => None);
    data[0] := Some(Str(Ascii("CLIENTS")));
    data[1] := Some(Num(nrClients));
    assert data[..2] == [data[0], data[1]];
    WriteRows(s, r, data);
  }

  ghost predicate Full(slots: seq<Slot>) {
    None !in slots
  }

  lemma {:induction false} RowsFullIff(s: Lobby, r: Ref, listed: seq<Ref>)
    ensures Full(Rows(s, r, listed)) <==> At(s, r).version != 4 || Count(s, r, listed) == 0
  {
    if listed != [] {
      var init, x := listed[..|listed| - 1], listed[|listed| - 1];
      RowsFullIff(s, r, init);
      if Mentioned(s, r, x) && At(s, r).version == 4 {
        assert Row(At(s, x), 4)[4] == None;
        assert Row(At(s, x), 4)[4] in Rows(s, r, listed);
      }
    }
  }

  // Every slot of a reply is filled unless a client of protocol version 4 is told of someone.
  lemma ReplyIsFullIff(s: Lobby, r: Ref)
    ensures Full(Reply(s, r)) <==> At(s, r).version != 4 || Count(s, r, s.listed) == 0
    ensures |Reply(s, r)| == 2 + NrFields(At(s, r).version) * Count(s, r, s.listed)
  {
    RowsFullIff(s, r, s.listed);
    RowsAreCounted(s, r, s.listed);
  }

  // In every possible run the reply to a live connection is filled completely: such a connection has no
  // version yet, or one that has been checked.
  lemma {:induction false} RepliesAreFull(db: Db, es: seq<Event>, r: Ref)
    requires GoodDb(db) && PossibleRun(db, es) && r < |Run(db, es).conns|
    requires var c := Run(db, es).conns[r]; c.phase != Gone && c.perm != Irc
    ensures
      var s := Run(db, es);
      && (s.conns[r].version == BUILD19 || s.conns[r].version >= BUILD20)
      && Full(Reply(s, r))
      && |Reply(s, r)| == 2 + NrFields(s.conns[r].version) * Count(s, r, s.listed)
  {
    LobbySteps.PossibleRunKeeps(db, es);
    assert LobbyInvariant.RecordOk(db, Run(db, es).conns[r]);
    ReplyIsFullIff(Run(db, es), r);
  }

  // That the connection is live matters: a refused LOGIN leaves its version behind, and a CLIENTS that
  // was already buffered when the connection was closed would get a reply with empty slots.
  lemma RefusedLoginLeavesItsVersion(db: Db, s: Lobby, r: Ref, cmd: Command)
    requires r < |s.conns| && s.conns[r].phase == Handshake && cmd.Login? && cmd.version == 4
    ensures
      var t := Handle(db, s, r, cmd);
      && t.conns[r].phase == Gone && t.conns[r].version == 4
      && (Full(Reply(t, r)) <==> Count(t, r, t.listed) == 0)
  {
    ReplyIsFullIff(Handle(db, s, r, cmd), r);
  }

  // ---------------------------------------------------------------- what the reply says

  // Of the listed clients those who are connected and have been announced, and the asking client itself; but
  // not the IRC users, when a client of protocol version 0 asks.
  function Shown(s: Lobby, r: Ref, listed: seq<Ref>): seq<Ref> {
    if listed == [] then []
    else
      var x := listed[|listed| - 1];
      var c := At(s, x);
      Shown(s, r, listed[..|listed| - 1]) +
      if c.phase == Connected && (c.announced || x == r) && (At(s, r).version == 0 ==> c.perm != Irc) then [x] else []
  }

  // Name, build, game (empty for none) and permission.
  function Says(c: Client): seq<Slot> {
    var perm :=
      match c.perm
      case Unregistered => "UNREGISTERED"
      case Registered => "REGISTERED"
      case Superuser => "SUPERUSER"
      case Irc => "IRC";
    var game := if c.game == None then [] else c.game.value;
    [Some(Str(c.name)), Some(Str(c.build)), Some(Str(game)), Some(Str(Ascii(perm)))]
  }

  lemma {:induction false} RowsSay(s: Lobby, r: Ref, listed: seq<Ref>, k: nat)
    requires k < |Shown(s, r, listed)|
    ensures
      var n, rows := NrFields(At(s, r).version), Rows(s, r, listed);
      && |rows| == n * |Shown(s, r, listed)| && n * k + n <= |rows|
      && rows[n * k..][..n] == Row(At(s, Shown(s, r, listed)[k]), At(s, r).version)
  {
    var n, x, init := NrFields(At(s, r).version), listed[|listed| - 1], listed[..|listed| - 1];
    var rows, shown := Rows(s, r, init), Shown(s, r, init);
    ShownFits(s, r, init);
    ShownFits(s, r, listed);
    if k < |shown| {
      RowsSay(s, r, init, k);
      assert Rows(s, r, listed)[n * k..][..n] == rows[n * k..][..n];
    } else {
      assert Shown(s, r, listed) == shown + [x];
      assert Rows(s, r, listed) == rows + Row(At(s, x), At(s, r).version);
    }
  }

  lemma {:induction false} ShownFits(s: Lobby, r: Ref, listed: seq<Ref>)
    ensures |Rows(s, r, listed)| == NrFields(At(s, r).version) * |Shown(s, r, listed)|
    ensures Count(s, r, listed) == |Shown(s, r, listed)|
  {
    if listed != [] { ShownFits(s, r, listed[..|listed| - 1]); }
  }

  // The reply names itself, gives the number of clients it shows, and then says of each, in list order, its
  // name, build, game and permission; versions below 4 get an empty field after that.
  lemma {:induction false} ReplySays(s: Lobby, r: Ref, k: nat)
    requires k < |Shown(s, r, s.listed)|
    ensures
      var reply, v, shown := Reply(s, r), At(s, r).version, Shown(s, r, s.listed);
      var n := if v < 5 then 5 else 4;
      && reply[..2] == [Some(Str(Ascii("CLIENTS"))), Some(Num(|shown|))] && |reply| == 2 + n * |shown|
      && 2 + n * k + n <= |reply| && reply[2 + n * k..][..4] == Says(At(s, shown[k]))
      && (v < 4 ==> reply[2 + n * k + 4] == Some(Str([])))
  {
    var reply, v, rows := Reply(s, r), At(s, r).version, Rows(s, r, s.listed);
    var n, x := NrFields(v), At(s, Shown(s, r, s.listed)[k]);
    RowsSay(s, r, s.listed, k);
    ShownFits(s, r, s.listed);
    assert reply[2..] == rows && reply[2 + n * k..] == rows[n * k..];
    assert FourFields(x) == Says(x);
    assert rows[n * k..][..n][..4] == FourFields(x);
    assert rows[n * k..][..4] == rows[n * k..][..n][..4];
    if v < 4 {
      assert rows[n * k..][..n][4] == Some(Str([]));
      assert reply[2 + n * k + 4] == rows[n * k..][4];
    }
  }
}
