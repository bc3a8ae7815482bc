/** The metaserver's game objects (wlms/game.go, wlms/server.go), proved to change the list as
    Agreement says. */
module MetaGames {
  import opened GoText
  import R = RelayModel
  import A = Agreement
  import RelayServer
  import Search

  ghost function Views(games: seq<Game>): (vs: seq<A.Game>)
    reads games
    ensures |vs| == |games| && forall i :: 0 <= i < |games| ==> vs[i] == games[i].View()
  {
    seq(|games|, i requires 0 <= i < |games| reads games => games[i].View())
  }

  class Game {
    ghost const ref: nat
    const name: Text
    const host: Text
    const usesRelay: bool
    var state: A.GameState
    var players: map<Text, bool>

    ghost function View(): A.Game
      reads this
    {
      A.Game(ref, name, host, usesRelay, state)
    }

    constructor (ghost ref: nat, host: Text, name: Text, usesRelay: bool)
      ensures View() == A.Game(ref, name, host, usesRelay, A.InitialSetup) && players == map[]
    {
      this.ref, this.name, this.host, this.usesRelay := ref, name, host, usesRelay;
      state, players := A.InitialSetup, map[];
    }

    method SetState(state: A.GameState)
      modifies this`state
      ensures this.state == state
    {
      if state != this.state {
        this.state := state;
      }
    }

    method AddPlayer(userName: Text)
      modifies this`players
      ensures players == old(players)[userName := true]
    {
      players := players[userName := true];
    }

    // The state changes of doPing.
    method PingResult(success: bool)
      modifies this`state
      ensures state == A.AfterPing(old(state), success)
    {
      if success {
        match state {
          case InitialSetup => SetState(A.Connectable);
          case NotConnectable => SetState(A.Connectable);
          case Connectable =>
          case Running =>
        }
      } else {
        match state {
          case InitialSetup => SetState(A.NotConnectable);
          case NotConnectable =>
          case Connectable => SetState(A.NotConnectable);
          case Running =>
        }
      }
    }
  }

  // What state a game was in does not matter once it is removed.
  lemma RemovalForgetsState(m: A.Meta, i: nat, state: A.GameState)
    requires i < |m.games| && A.FindRef(m.games, m.games[i].ref) == i
    ensures A.RemoveGame(A.SetState(m, i, state), m.games[i].ref) == A.RemoveGame(m, m.games[i].ref)
  {
    var t, ref := A.SetState(m, i, state), m.games[i].ref;
    assert forall k :: 0 <= k < |m.games| ==> t.games[k].ref == m.games[k].ref;
    var k := A.FindRef(t.games, ref);
    assert !(k < i) && !(i < k);
    assert R.Without(t.games, i) == R.Without(m.games, i);
  }

  // The i-th game goes: first on the relay, if it is there, and then from the list.
  function KickAt(s: A.System, i: nat): A.System
    requires i < |s.meta.games|
  {
    var t := if s.meta.games[i].usesRelay then A.RelayStep(s, R.Remove(s.meta.games[i].name)) else s;
    A.System(A.RemoveGame(t.meta, s.meta.games[i].ref), t.relay)
  }

  lemma KickIs(s: A.System, name: Text)
    ensures
      var i := A.HasGame(s.meta.games, name);
      A.Step(s, A.Kick(name)) == if i == |s.meta.games| then s else KickAt(s, i)
  {
  }

  // A client in the metaserver's list as far as games are concerned.
  datatype Member = Member(name: Text, irc: bool, game: Game?)

  // Whether the player of that name is there and in that game.
  function InGame(lobby: seq<Member>, name: Text, g: Game): bool {
    var i := Search.First(lobby, (m: Member) => m.name == name && !m.irc);
    i < |lobby| && lobby[i].game == g
  }

  datatype Reply = Opened | GameExists | NoChallenge | RelayError

  class GameList {
    var games: seq<Game>
    ghost var all: set<Game>           // every game object there has been
    ghost var made: nat

    ghost predicate Valid()
      reads this, all
    {
      && (forall i :: 0 <= i < |games| ==> games[i] in all)
      && (forall i, j :: 0 <= i < j < |games| ==> games[i] != games[j])
      && (forall g :: g in all ==> g.ref < made)
      && (forall g, h :: g in all && h in all && g.ref == h.ref ==> g == h)
    }

    ghost function View(): A.Meta
      reads this, games
    {
      A.Meta(Views(games), made)
    }

    constructor ()
      ensures Valid() && View() == A.Meta([], 0)
    {
      games, all, made := [], {}, 0;
    }

    // The place of the game with that identity.
    lemma Placed(i: nat)
      requires Valid() && i < |games|
      ensures A.FindRef(View().games, games[i].ref) == i
      ensures forall k :: 0 <= k < |games| && games[k] == games[i] ==> k == i
    {
      var k := A.FindRef(View().games, games[i].ref);
      assert games[i] in all;
      assert k < |games| ==> games[k] in all;
      assert !(k < i) && !(i < k);
    }

    lemma NotPlaced(g: Game)
      requires Valid() && g in all && g !in games
      ensures A.FindRef(View().games, g.ref) == |games|
    {
      forall k | 0 <= k < |games| ensures Views(games)[k].ref != g.ref {
        assert games[k] in games && games[k] in all;
      }
    }

    // The first game with the name.
    method HasGame(name: Text) returns (g: Game?)
      requires Valid()
      ensures
        var i := A.HasGame(View().games, name);
        g == if i < |games| then games[i] else null
    {
      var k := 0;
      while k < |games|
        invariant k <= |games| && forall j :: 0 <= j < k ==> games[j].name != name
      {
        assert Views(games)[k].name == games[k].name;
        if games[k].name == name {
          AgreesAt(name, k);
          return games[k];
        }
        k := k + 1;
      }
      AgreesAt(name, k);
      g := null;
    }

    lemma AgreesAt(name: Text, i: nat)
      requires i <= |games| && (i < |games| ==> games[i].name == name)
      requires forall j :: 0 <= j < i ==> games[j].name != name
      ensures A.HasGame(View().games, name) == i
    {
      A.HasGameAt(View().games, name, i);
    }

    method AddGame(host: Text, name: Text, usesRelay: bool) returns (g: Game)
      requires Valid()
      modifies this
      ensures Valid() && fresh(g) && g in games && View() == A.AddGame(old(View()), host, name, usesRelay)
      ensures all == old(all) + {g} && g.host == host && g.players == map[]
    {
      g := new Game(made, host, name, usesRelay);
      games, all, made := games + [g], all + {g}, made + 1;
      assert Views(games) == old(Views(games)) + [g.View()];
    }

    // That very object leaves the list, if it is there.
    method RemoveGame(g: Game)
      requires Valid() && g in all
      modifies this`games
      ensures Valid() && View() == A.RemoveGame(old(View()), g.ref)
    {
      var i := 0;
      while i < |games| && games[i] != g
        invariant i <= |games| && g !in games[..i]
      {
        assert games[..i + 1] == games[..i] + [games[i]];
        i := i + 1;
      }
      if i < |games| {
        CutAt(i);
      } else {
        assert games[..i] == games;
        NotPlaced(g);
      }
    }

    method CutAt(i: nat)
      requires Valid() && i < |games|
      modifies this`games
      ensures Valid() && View() == A.RemoveGame(old(View()), old(games)[i].ref)
    {
      Placed(i);
      games := games[..i] + games[i + 1..];
      assert Views(games) == R.Without(old(Views(games)), i);
    }

    // Only the state of the i-th game has changed.
    twostate lemma OnlyState(i: nat)
      requires old(Valid()) && games == old(games) && made == old(made) && all == old(all) && i < |games|
      requires forall k :: 0 <= k < |games| && k != i ==> unchanged(games[k])
      ensures Valid() && View() == A.SetState(old(View()), i, games[i].state)
    {
      assert Views(games) == old(Views(games))[i := old(games[i].View()).(state := games[i].state)];
    }

    method SetState(g: Game, state: A.GameState, ghost i: nat)
      requires Valid() && i < |games| && games[i] == g
      modifies g`state
      ensures Valid() && View() == A.SetState(old(View()), i, state)
    {
      Placed(i);
      g.SetState(state);
      OnlyState(i);
    }

    // The relay reports that the host of a game has connected.
    method GameConnected(name: Text)
      requires Valid()
      modifies games
      ensures Valid() && forall k: nat :: View() == A.Deliver(old(View()), R.Connected(k, name))
    {
      var game := HasGame(name);
      if game == null {
        return;
      }
      SetState(game, A.Connectable, A.HasGame(View().games, name));
    }

    // The relay reports that a game has been closed.
    method GameClosed(name: Text)
      requires Valid()
      modifies this`games
      ensures Valid() && forall k: nat :: View() == A.Deliver(old(View()), R.Closed(k, name))
    {
      var game := HasGame(name);
      if game == null {
        return;
      }
      RemoveGame(game);
    }

    // GAME_OPEN. A game on the relay needs a challenge for its host and the relay's consent; only then
    // is it listed. The host is one of its players from the start.
    method Open(host: Text, name: Text, legacy: bool, password: Text, challenged: bool, relay: RelayServer.Server)
      returns (reply: Reply, g: Game?)
      requires Valid() && relay.Valid()
      modifies this, relay
      ensures Valid() && relay.Valid()
      ensures
        reply == match A.OpenReplyTo(old(A.System(View(), relay.View())), name, legacy)
                 case GameExists => GameExists
                 case RelayError => if challenged then RelayError else NoChallenge
                 case Opened => if legacy || challenged then Opened else NoChallenge
      ensures
        A.System(View(), relay.View()) ==
        if reply == NoChallenge then old(A.System(View(), relay.View()))
        else A.Step(old(A.System(View(), relay.View())), A.Open(host, name, legacy, password))
      ensures reply == Opened <==> g != null
      ensures g != null ==> g in games && g.host == host && host in g.players
    {
      var prior := HasGame(name);
      if prior != null {
        return GameExists, null;
      }
      g := null;
      reply := AskRelay(name, legacy, password, challenged, relay);
      if reply == Opened {
        g := Enter(host, name, !legacy);
      }
    }

    method AskRelay(name: Text, legacy: bool, password: Text, challenged: bool, relay: RelayServer.Server)
      returns (reply: Reply)
      requires Valid() && relay.Valid()
      modifies relay
      ensures Valid() && View() == old(View()) && relay.Valid()
      ensures
        var r := old(relay.View());
        && reply == (if legacy then Opened else if !challenged then NoChallenge
                     else if R.Find(r.games, name) < |r.games| then RelayError else Opened)
        && relay.View() == if legacy || !challenged then r else R.Step(r, R.Create(name, password))
    {
      if legacy {
        return Opened;
      }
      if !challenged {
        return NoChallenge;
      }
      var created := relay.CreateGame(name, password);
      reply := if created then Opened else RelayError;
    }

    // What the relay reports, call by call.
    method Hear(notes: seq<R.Note>)
      requires Valid()
      modifies this`games, all
      ensures Valid() && View() == A.DeliverAll(old(View()), notes)
    {
      assert notes[0..] == notes;
      for k := 0 to |notes|
        invariant Valid() && A.DeliverAll(View(), notes[k..]) == A.DeliverAll(old(View()), notes)
      {
        assert notes[k..][0] == notes[k] && notes[k..][1..] == notes[k + 1..];
        HearOne(notes[k]);
      }
      assert notes[|notes|..] == [];
    }

    method HearOne(note: R.Note)
      requires Valid()
      modifies this`games, all
      ensures Valid() && View() == A.Deliver(old(View()), note)
    {
      match note {
        case Connected(_, name) => GameConnected(name);
        case Closed(_, name) => GameClosed(name);
        case _ =>
      }
    }

    // CMD kick on a game by an administrator. A game on the relay is removed there first, and what the
    // relay reports is heard before the list is looked at again.
    method KickGame(name: Text, relay: RelayServer.Server)
      requires Valid() && relay.Valid()
      modifies this`games, all, relay, relay.games
      ensures Valid() && relay.Valid()
      ensures A.System(View(), relay.View()) == A.Step(old(A.System(View(), relay.View())), A.Kick(name))
    {
      KickIs(A.System(View(), relay.View()), name);
      var g := HasGame(name);
      if g != null {
        KickListed(g, relay, A.HasGame(View().games, name));
      }
    }

    method KickListed(g: Game, relay: RelayServer.Server, ghost i: nat)
      requires Valid() && relay.Valid() && i < |games| && games[i] == g
      modifies this`games, all, relay, relay.games
      ensures Valid() && relay.Valid()
      ensures A.System(View(), relay.View()) == KickAt(old(A.System(View(), relay.View())), i)
    {
      if g.usesRelay {
        RemoveOnRelay(g.name, relay);
      }
      RemoveGame(g);
    }

    method RemoveOnRelay(name: Text, relay: RelayServer.Server)
      requires Valid() && relay.Valid()
      modifies this`games, all, relay, relay.games
      ensures Valid() && relay.Valid()
      ensures A.System(View(), relay.View()) == A.RelayStep(old(A.System(View(), relay.View())), R.Remove(name))
    {
      var known := |relay.wire.log|;
      TellRelay(name, relay);
      Hear(if known <= |relay.wire.log| then relay.wire.log[known..] else []);
    }

    method TellRelay(name: Text, relay: RelayServer.Server)
      requires Valid() && relay.Valid()
      modifies relay, relay.games
      ensures Valid() && View() == old(View()) && relay.Valid()
      ensures relay.View() == R.Step(old(relay.View()), R.Remove(name))
    {
      var _ := relay.RemoveGame(name);
    }

    // NewGame, and the host's setGame.
    method Enter(host: Text, name: Text, usesRelay: bool) returns (g: Game)
      requires Valid()
      modifies this
      ensures Valid() && View() == A.AddGame(old(View()), host, name, usesRelay)
      ensures fresh(g) && g in games && g.host == host && host in g.players
    {
      g := AddGame(host, name, usesRelay);
      g.AddPlayer(host);
      assert Views(games) == old(Views(games)) + [g.View()];
    }

    // A player leaves: when it is the host of a self-hosted game, that ends the game.
    method RemovePlayer(g: Game, userName: Text)
      requires Valid() && g in all
      modifies this`games, g`players
      ensures Valid()
      ensures View() == if userName == g.host && !g.usesRelay then A.RemoveGame(old(View()), g.ref) else old(View())
      ensures g.players ==
        if userName != g.host && userName in old(g.players) then old(g.players)[userName := false] else old(g.players)
    {
      if userName == g.host {
        if !g.usesRelay {
          RemoveGame(g);
        }
        return;
      }
      if userName in g.players {
        g.players := g.players[userName := false];
        assert Views(games) == old(Views(games));
      }
    }

    // One ping of a self-hosted game: when it fails and the host is not there, or not in the game any
    // more, the game goes.
    method DoPing(g: Game, success: bool, lobby: seq<Member>, ghost i: nat)
      requires Valid() && i < |games| && games[i] == g && !g.usesRelay
      modifies this`games, g
      ensures Valid()
      ensures
        View() == if !success && !InGame(lobby, g.host, g) then A.RemoveGame(old(View()), g.ref)
                  else A.SetState(old(View()), i, A.AfterPing(old(g.state), success))
    {
      Placed(i);
      RemovalForgetsState(View(), i, A.AfterPing(g.state, success));
      TakeResult(g, success, i);
      if !success {
        var there := HostIsThere(lobby, g);
        if !there {
          RemovePlayer(g, g.host);
        }
      }
    }

    method TakeResult(g: Game, success: bool, ghost i: nat)
      requires Valid() && i < |games| && games[i] == g
      modifies g`state
      ensures Valid() && View() == A.SetState(old(View()), i, A.AfterPing(old(g.state), success))
    {
      Placed(i);
      g.PingResult(success);
      OnlyState(i);
    }

    method HostIsThere(lobby: seq<Member>, g: Game) returns (there: bool)
      ensures there == InGame(lobby, g.host, g)
    {
      var wanted := (m: Member) => m.name == g.host && !m.irc;
      for k := 0 to |lobby|
        invariant forall j :: 0 <= j < k ==> !wanted(lobby[j])
      {
        if lobby[k].name == g.host && !lobby[k].irc {
          Search.FirstIs(lobby, (m: Member) => m.name == g.host && !m.irc, k);
          return lobby[k].game == g;
        }
      }
      Search.FirstIs(lobby, (m: Member) => m.name == g.host && !m.irc, |lobby|);
      there := false;
    }
  }
}
