# The Widelands servers: relay, metaserver, wire formats

Two servers let Widelands players meet. The metaserver (`wlms`) keeps the lobby: who is logged in,
under which name and with which rights, and which games are offered. The relay (`wlnr`) passes the
traffic of a game between its host and its clients, and reports to the metaserver when a game's host
has connected and when the game is closed. This project models both as state machines, proves what
every step keeps and what holds after every run, and proves the objects and loops of the program
against those machines.

## How it is built

| files | what they hold |
|---|---|
| `GoText`, `Search`, `PacketCodec` | byte strings and numerals; first matches in lists; the metaserver's packets |
| `RelayFraming` | the relay's commands and the readers for them |
| `RelayModel`, `RelayInvariant`, `RelayTheorems` | the relay as a state machine on values: steps, invariant, theorems about whole runs |
| `RelayInput`, `RelayDecoding`, `RelayPings` | from received bytes to its events, from its log back to bytes; pings and timeouts |
| `RelayCodes` | the relay's protocol in numbers: what is sent and received, byte by byte |
| `RelayAdmission`, `RelayGoodbyes` | who is let into a game, by which password; how connections end, and that nobody is left behind |
| `RelayServer` | the relay's `Game` and `Server` objects, each method proved to take the machine's step |
| `Agreement`, `MetaGames` | relay and metaserver game list in one machine; the metaserver's game objects |
| `GameStates` | in which state a game is listed and when an entry comes and goes, against the history of both servers |
| `LobbyModel`, `FreeName` | logging in, replacing connections, relogin, removal, IRC users, announcements as a state machine |
| `LobbyInput` | from the fields of a packet to the commands about logging in |
| `LobbyInvariant`, `LobbySteps`, `LobbyTheorems`, `LobbyAnnouncements` | its invariant, in a core and a part about names, and the theorems about whole runs |
| `LobbyProofs` | who has rights has proved who it is; what was asked and answered is read off the run |
| `LobbyOutcomes`, `LobbyDepartures` | how every attempt ends, said of the client list; who makes way for whom, and who leaves |
| `LobbyWaiting` | nobody waits in vain for another client's answer, but for one exception |
| `LobbyLate` | packets handled after their connection was closed |
| `LobbyScans`, `LobbyServer` | the metaserver's `Client` and `Server` objects, each method proved to take the machine's step |
| `Bans`, `ClientsReply` | the pruned list of bans; the reply to CLIENTS |

A run is a sequence of events (`Event`), `Run` folds `Step` over it, and a theorem about `Run` holds
of every sequence of events. Object identity is explicit: a connection, client or game object is
named by the order of its creation, so that "the same name" and "the same object" stay different
things. In `RelayServer`, `LobbyServer` and `MetaGames` the objects are real heap objects, and `View`
maps them to the machine's state.

## What is assumed

* Every packet handler, RPC call and timer callback is one atomic step, and what it sends is appended
  to a log in order. The Go program has no locks.
* RPC between the servers is reliable and synchronous: what the relay reports during a step has
  reached the metaserver at its end.
* The user database is fixed, gives nobody the permission of IRC users, and its digest function is
  arbitrary except that no digest is the nonce `irc`. Challenges, ban verdicts and measured round trip
  times come with the events.
* In the lobby (`Possible`): a disconnected connection delivers no packets; whoever waits for another
  client's answer makes no second login attempt meanwhile, well-formed or not (before and after that, any
  order of CHECK_PWD, LOGIN, PWD_CHALLENGE and RELOGIN is covered); a client whose ping stayed unanswered
  does not fail a second time for somebody who has been let in on that account; and nobody logs in with
  the nonce `irc`. A run of such events is called *possible*.

The first of these is narrower than the code, which still handles up to ten buffered packets of a
connection it has closed (`wlms/client.go:243-300`). `LobbyLate` shows that it is needed and what depends on
it: garbage followed in one go by a refused LOGIN under another name leaves two listed players of one name
(`LateLoginBreaksNames`), or a listed administrator under a name that is not registered
(`LateLoginBreaksRights`); and it gives the exact condition under which such a packet does no harm
(`LatePacketKeepsNamesIff`, `LatePacketKeepsRightsIff`). A buffered CLIENTS after a refused LOGIN of version 4
reaches an empty slot (`RefusedLoginLeavesItsVersion`). The machine's steps and the methods of `LobbyServer`
cover such packets; the theorems about possible runs leave them out.

That the names of listed players stay unique (and with it the silence of the sanity check and the exactness of
the search for candidates) is the one thing that needs more. A possible run is *valid*
when every step is `Clean`, a condition on the state before the step: nobody is replaced whose name has gone
to somebody else since it left the list. Of the possible runs, those in which names stay unique are
exactly the valid ones (`AlwaysUniqueIffValid`), whichever of the two replacement paths is taken, and
`StaleReplacementBreaksUniqueness` gives one of eleven ordinary events that is not. Rights, probes,
notices and CLIENTS replies are proved of all possible runs, stale replacements included.

## Where the code says something else than its comments

* `wlms/client.go:83` promises unique user names. Of the possible runs, they are unique in exactly the valid
  ones.
* `wlms/client.go:794` and `wlms/server.go:408` call giving up the search for a name and a failing game
  creation on the relay things that should not happen. `FreeNameIsFound` gives a bound under which the
  first does not, `RelayNeverRefuses` shows that the second never does.
* `wlms/server.go:578-603` drops stale games without telling the relay. `CleanupAgreesIffSelfHosted`
  shows that this keeps the servers in agreement exactly for self-hosted games.
* `wlnr/game.go:217-223` worries about a packet from a client while there is no host.
  `UploadReachesTheHost` shows that it happens exactly when the client's game has already been closed, and
  `NilHostHappens` gives a run in which it does.
* `wlms/server.go:140-145` warns of names that are listed twice; `SanityCheckIsSilent` shows that in valid
  runs it never has occasion to, at whatever point of a step a client is removed.
* `wlms/client.go:661` compares an answer with a field that is empty until there has been a challenge. So what a
  connection owes (`LobbyProofs.LastAsked`) is the empty answer as long as it has not been challenged, or when no
  challenge could be drawn; `RightsAreProved` and `AnswersAreChecked` hold with that reading.
* `wlms/client.go:256-267` serves whoever waits for a client when that client answers. A RELOGIN for a client
  somebody already waits for takes that place (`wlms/client.go:878-883`), and whoever had it waits in vain; nothing
  else leads to that (`NobodyWaitsInVainIff`).
* `wlms/client.go:1002-1031` leaves slots of the CLIENTS reply empty for protocol version 4 only
  (`ReplyIsFullIff`), and no live connection has that version (`RepliesAreFull`).

## Model

| member | source | states |
|---|---|---|
| RelayTheorems.GamesLiveInCycles | wlnr/game.go:68-95 | in every run the notices about a game name are complete lives (created, at most one host connection, closed) and at most one unfinished life that stands as the game list does; creations equal closings plus one if the name is listed |
| RelayTheorems.HaltClosesEverything | wlnr/server.go:140-148 | from every reachable state the shutdown loop empties the game list, and every game ever created has been reported closed |
| RelayTheorems.NothingIsReused | wlnr/game.go:101-113 | in every run a game object is created once, gets a host at most once, and announces ids to its host in strictly rising order |
| RelayTheorems.HostsKnowTheirClients | wlnr/game.go:107-152 | in every run, replaying the connect and disconnect commands in a host's log gives exactly the ids in its client list, which are strictly increasing within 2 to 249 |
| RelayTheorems.UploadReachesTheHost | wlnr/game.go:208-223 | a client's packet goes to the host of its own game under its own id, which the host knows if and only if the client is listed; the host is nil only when the game is no longer listed |
| RelayTheorems.NilHostHappens | wlnr/game.go:217-223 | a run (create, two greetings, remove, upload) in which a packet is forwarded although the host is nil |
| RelayTheorems.RemovalEmptiesThePictureFirst | wlnr/game.go:74-78 | on the metaserver-ordered path the host has been told that everyone left before its own disconnect command, and the closing notice is the last thing sent |
| RelayTheorems.LosingTheHostLeavesThePicture | wlnr/game.go:134-140 | when the host itself goes, it gets its disconnect command first and still believes all clients present; the game leaves the list |
| RelayTheorems.RttReplyIsExact | wlnr/game.go:173-195 | in every reachable game the reply's count byte never truncates, equals the number of triples (at most 249), and the triples have rising, hence different, ids |
| RelayTheorems.MulticastReachesTheListed | wlnr/game.go:255-282 | a host's packet is delivered to exactly the listed clients whose id it mentions, once per mention, in order |
| RelayTheorems.OthersForwardNothing | wlnr/game.go:207-282 | in every run, a multicast of anyone who is not the host of a listed game, and an upload of a host or of a stranger, change nothing |
| RelayTheorems.LosingAClientSparesTheRest | wlnr/game.go:141-153 | in every run, a lost client is taken off its game's list and nobody else is; the host is told, and then the client the reason, unless its connection is closed already |
| RelayTheorems.StepSettles | wlnr/server.go:47-86 | no step but a creation or a greeting brings a new game, host or client, or takes away what the log says |
| RelayInvariant.StepKeeps | wlnr/game.go:81-154 | every step keeps: different names, host not among the clients, no host implies no clients, ids in order, seats, traces, pictures |
| RelayInvariant.RunKeeps | wlnr/server.go:132-189 | every reachable relay state satisfies that invariant |
| RelayDecoding.EverythingSentIsUnderstood | wlnr/command.go:7-30 | in every run whose events arise from received bytes, the bytes sent to any connection, pings included, decode with the repository's own readers to exactly the commands sent, with nothing left over |
| RelayPings.TimeoutsAreDeserved | wlnr/client.go:137-162 | in every run whose events arise from received bytes, whoever is cut off for a timeout had at that moment left a ping unanswered |
| RelayPings.TimerDecides | wlnr/client.go:137-168 | in every such run, when the timer of an open connection goes off it is cut off if and only if its last ping has no answer, and otherwise gets the next ping, numbered on modulo 256 |
| RelayCodes.CommandsInBytes | wlnr/command_codes.go:10-24 | all eight commands sent, as bytes in numerals: 2 welcome, 3 disconnect, 4 ping, 7 round trip times in triples, 11 arrival, 12 departure, 14 from a client, 22 from the host |
| RelayCodes.PeersReadByNumber | wlnr/command_codes.go:10-24 | the reader takes bytes written by these numbers for exactly those commands, whatever follows |
| RelayCodes.MembersAreReadByNumber | wlnr/game.go:196-294 | what members send is understood by number: 3 leaving, 5 pong, 6 request for times, 13 to clients (hosts only), 21 to the host (clients only); any other byte is skipped |
| RelayCodes.GreetingsAreReadByNumber | wlnr/server.go:153-178 | a greeting is the bytes 1 and 1, a name and a password; another version is noticed before the strings are read, another first byte is no greeting |
| RelayCodes.HostsReadTheirClients | wlnr/game.go:107-152 | in every run, a host that takes the byte 11 for an arrival and 12 for a departure knows exactly the clients in its game's list |
| RelayCodes.RttsAreReported | wlnr/game.go:165-194 | in every run, a member that asks is told of the host, under id 1, and then of every client in list order, with milliseconds and seconds cut off at 255 |
| RelayFraming.CommandIsTakenBack | wlnr/command.go:7-30 | a command in front of any bytes is read back as itself leaving those bytes, if and only if it is well formed |
| RelayFraming.CommandsAreTakenBack | wlnr/client.go:80-115 | a concatenation of well-formed commands decodes to the same sequence and is consumed whole |
| RelayFraming.PacketIsTransparent | wlnr/client.go:95-115 | what ReadPacket accepts is exactly a prefix of the stream, with the length its own header says; it accepts whenever the stream holds such a packet |
| RelayFraming.IdsAreTakenBack | wlnr/game.go:256-272 | the id list is exactly the bytes in front of the first 0, none of which is 0 |
| RelayInput.PacketCrossesToHost | wlnr/game.go:207-223 | in every run, the bytes of a TO_HOST from a seated client lead to a step that sends its host those bytes unchanged, under the client's own id, in a command the host reads back; nothing after them is consumed |
| RelayInput.PacketCrossesToClients | wlnr/game.go:254-282 | in every run, the bytes of a TO_CLIENTS from a host lead to a step that sends them unchanged to the listed clients mentioned, in order, in a command they read back |
| RelayInput.StreamsAreWholesome | wlnr/game.go:196-294 | whatever bytes a member delivers, its message loop leads only to events with framed packets, ids other than 0, and the relay's own reasons |
| RelayAdmission.HostsKnewThePassword | wlnr/game.go:81-93 | in every run, whoever is the host of a listed game has greeted with version 1, the game's name and the very password the metaserver ordered that game with, after the order |
| RelayAdmission.GreetingIsDecided | wlnr/game.go:81-120 | in every run, what a greeting leads to: the reason of the refusal and nothing else, or the seat, the id, the note to the metaserver or the host, and the welcome; a wrong password for a game without a host gets NO_HOST and leaves it without one |
| RelayAdmission.TimerLeavesOnlyHosted | wlnr/server.go:64-75 | in every run, the timer closes and reports the game of its name exactly if it has no host; otherwise nothing changes |
| RelayGoodbyes.NobodyIsLeftBehind | wlnr/game.go:68-154 | in every run, a connection is closed if and only if it has been sent a disconnect command, exactly one; and whoever was ever admitted still sits in a listed game or has been disconnected |
| RelayGoodbyes.GoodbyesSayWhy | wlnr/client.go:122-135 | in every run, whoever a step cuts off has been told the one reason that step has: WRONG_VERSION, GAME_UNKNOWN, NO_HOST, NORMAL, TIMEOUT, PROTOCOL_VIOLATION, or the reason of its own loss |
| RelayFraming.Buffer.constructor | wlnr/command.go:7-13 | a new command holds its code |
| RelayFraming.Buffer.AppendUInt | wlnr/command.go:15-17 | appends one byte to the buffer |
| RelayFraming.WelcomeCommand | wlnr/game.go:116-118 | the buffer built holds the encoding of the command, which is read back as itself |
| RelayFraming.DisconnectCommand | wlnr/client.go:127-128 | the same for the disconnect command |
| RelayFraming.PingCommand | wlnr/client.go:149-150 | the same for a ping |
| RelayFraming.ConnectCommand | wlnr/game.go:111-112 | the same for the commands that announce a client or its leaving (11 and 12, `RelayCodes.CommandsInBytes`) |
| RelayFraming.FromClientCommand | wlnr/game.go:220-222 | the same for a packet on its way to the host |
| RelayFraming.FromHostCommand | wlnr/game.go:278-279 | the same for a packet on its way to the clients |
| RelayFraming.AddClientRtt | wlnr/game.go:165-171 | appends the encoding of the member's triple, its times cut off at 255 |
| RelayFraming.RttCommand | wlnr/game.go:173-195 | the two passes build exactly the encoding of the reply: the count cut to a byte, the host's triple, the clients' triples in list order |
| RelayFraming.Reader.ReadUint8 | wlnr/client.go:80-84 | returns and consumes the next byte, or fails at the end |
| RelayFraming.Reader.ReadString | wlnr/client.go:86-93 | returns and consumes the bytes up to the next NUL, or fails at the end |
| RelayFraming.Reader.ReadIds | wlnr/game.go:256-272 | the loop reads exactly the ids in front of the terminator, or fails |
| RelayFraming.Reader.ReadPacket | wlnr/client.go:95-115 | accepts exactly what the specification accepts, with the bytes consumed as it says |
| RelayServer.Game.Shutdown | wlnr/game.go:68-79 | terminates through its mutual recursion; leaves no host and no clients, the game unlisted and exactly one closing notice; does nothing when already under way |
| RelayServer.Game.DisconnectClient | wlnr/game.go:131-154 | terminates through its mutual recursion; a client leaves with the right commands in the right order, the host takes the whole game down, anyone else is ignored |
| RelayServer.Game.GetClient | wlnr/game.go:122-129 | the loop returns the first client with the id, or none |
| RelayServer.Server.Lookup | wlnr/server.go:180-186 | the loop finds the first game of a name, or none |
| RelayServer.Server.CreateGame | wlnr/server.go:30-45 | refuses a listed name and changes nothing, else appends a fresh game |
| RelayServer.Server.RemoveGame | wlnr/server.go:47-58 | shuts down the first game of that name and says whether there was one |
| RelayServer.Server.RemoveGameIfNoHostIsConnected | wlnr/server.go:65-75 | the timer drops a hostless game of that name after telling the metaserver, and nothing else |
| RelayServer.Server.RemoveGameObject | wlnr/server.go:77-86 | tells the metaserver and unlists exactly that object; does nothing when it is not listed |
| RelayServer.Server.MemberLost | wlnr/game.go:196-206 | the end of a connection takes the machine's step, also when the game is closed already |
| RelayServer.Server.ShutdownServer | wlnr/server.go:140-148 | the loop terminates although every turn of it removes its game by itself, and leaves the list empty |
| RelayServer.Server.DealWithNewConnection | wlnr/server.go:153-189 | the bytes of a new connection are read as a greeting; it is refused for the right reason or routed to the first game of its name |
| RelayServer.Server.ReadHello | wlnr/server.go:153-178 | the reads and their early exits yield exactly the greeting's event |
| RelayServer.Server.AddClient | wlnr/game.go:81-120 | takes the machine's step for a greeting, which is the one `RelayAdmission.GreetingIsDecided` describes: a host by password, a client by version and free id, the right reason otherwise |
| RelayServer.Server.ForwardToClients | wlnr/game.go:255-282 | the loops deliver the packet as the machine does |
| RelayServer.Server.FindDestinations | wlnr/game.go:256-272 | the loop collects the listed clients mentioned, in order |
| RelayServer.Server.ForwardToHost | wlnr/game.go:208-223 | a packet from a client takes the machine's step, also when the game is closed and its host nil |
| RelayServer.Server.CollectRtts | wlnr/game.go:186-193 | the loop yields the triples of the host and of the clients in list order |
| RelayServer.Server.SendRtts | wlnr/game.go:173-195 | a request for round trip times takes the machine's step; a closed game reports nobody |
| RelayServer.Server.ClientRound | wlnr/game.go:196-236 | one round of the loop reads what the bytes say, takes the step of the event they amount to, and ends exactly on leaving, violation or end of input |
| RelayServer.Server.HostRound | wlnr/game.go:238-294 | the same for the host's loop, which also ends when some other code has taken the host away |
| RelayServer.Server.PingTimer | wlnr/client.go:137-162 | one round of the ping loop takes the machine's step: the flag and the number are the connection's own state |
| RelayServer.Server.HandlePong | wlnr/client.go:164-168 | any PONG answers the last ping |
| RelayServer.Server.Disconnect | wlnr/client.go:122-135 | the reason is sent once, and a closed connection is left alone |
| Agreement.ServersAgree | wlms/client.go:887-941 | in every run of the two servers, after every step: the relay games the metaserver lists are exactly the games on the relay, names are unique on both sides, and a relay game is joinable only while its host is connected there |
| Agreement.StepKeepsAgreement | wlms/server.go:425-444 | every step of either server keeps the agreement |
| Agreement.RelayNeverRefuses | wlms/server.go:406-422 | in no run is GAME_OPEN answered with RELAY_ERROR, nor is the relay told to remove a game it does not have |
| Agreement.CleanupAgreesIffSelfHosted | wlms/server.go:578-593 | dropping a listed game without telling the relay leaves the servers in agreement, in everything the agreement says and in the names alone, if and only if the game is self-hosted |
| Agreement.AgreementMeans | wlms/client.go:887-941 | what the agreement says of any list and relay: same relay games, unique names on both sides, joinable only with the host connected |
| Agreement.RemovedByReport | wlms/client.go:451-458 | when a relay game is kicked, the relay's own report has already removed the entry, and the explicit removal changes nothing |
| GameStates.StatesFollowHistory | wlms/game.go:48-87 | in every run of the two servers, every listed game is in the state its history gives it: set up, started, as the last ping of a self-hosted game says, or joinable since its host connected to the relay |
| GameStates.RelayGamesOpenWithTheirHost | wlms/server.go:424-433 | in every run, a listed game on the relay is joinable, or has been started, if its host is connected there, and is being set up, or has been started, if not |
| GameStates.GreetingOpensTheGame | wlms/server.go:424-433 | in every run, a greeting with the right password of a game that waits for its host makes exactly that game joinable on the metaserver |
| GameStates.EntriesComeAndGo | wlms/server.go:282-290 | in every run, an entry lasts until its host leaves or is not there when a ping fails, it is kicked, or the relay has closed it, and nothing else ends it; what is new was opened, in its initial state, under a free name |
| GameStates.OpeningIsDecided | wlms/client.go:887-941 | in every run, GAME_OPEN is granted exactly if no listed game has the name; then the game is listed, and on the relay too unless it is self-hosted |
| MetaGames.Game.PingResult | wlms/game.go:48-73 | the state a ping leads to, for all four states |
| MetaGames.Game.SetState | wlms/game.go:155-161 | sets the state |
| MetaGames.GameList.HasGame | wlms/server.go:292-300 | the loop returns the first game of the name, or null |
| MetaGames.GameList.AddGame | wlms/game.go:126-142 | a fresh game object at the end of the list |
| MetaGames.GameList.RemoveGame | wlms/server.go:282-290 | exactly that object leaves the list, if it is there |
| MetaGames.GameList.GameConnected | wlms/server.go:425-433 | takes the step of the joint machine for the relay's report, by which the game becomes joinable (`GameStates.GreetingOpensTheGame`) |
| MetaGames.GameList.GameClosed | wlms/server.go:436-444 | takes the step of the joint machine for the relay's report |
| MetaGames.GameList.KickGame | wlms/client.go:451-458 | kicking a game takes the joint machine's step: off the relay first, the relay's reports are heard, then off the list |
| MetaGames.GameList.Hear | wlms/server.go:425-444 | a sequence of reports changes the list as the joint machine says |
| MetaGames.GameList.Open | wlms/client.go:887-941 | takes the joint machine's step for GAME_OPEN, relay included; a failed challenge changes nothing; the host is a player of its game |
| MetaGames.GameList.RemovePlayer | wlms/game.go:172-188 | the host's leaving ends a self-hosted game and no other; anyone else's is noted |
| MetaGames.GameList.DoPing | wlms/game.go:48-87 | a failed ping removes the game if its host is not a listed player in that very game, any other ping sets its state |
| MetaGames.GameList.HostIsThere | wlms/game.go:74-75 | the loop finds out whether the first player of the host's name is in the game |
| LobbySteps.StepKeeps | wlms/client.go:567-885 | every possible step keeps the core: rights from the database, one waiting attempt per client and one client per attempt, what a waiting attempt must satisfy, checked versions; every clean one also keeps names unique and removals silent |
| LobbySteps.RunKeeps | wlms/client.go:224-314 | every state a valid run reaches satisfies both parts of the invariant |
| LobbySteps.PossibleRunKeeps | wlms/client.go:224-314 | every state a possible run reaches satisfies the core |
| LobbyTheorems.NamesAreUnique | wlms/server.go:119-168 | in every valid run no two listed players, and no two listed IRC users, share a name, and nobody is listed twice |
| LobbyTheorems.RightsComeFromTheDatabase | wlms/client.go:656-688 | in every possible run a listed player with the rights of a registered user or administrator has exactly the database's rights for the name it bears |
| LobbyProofs.RightsAreProved | wlms/client.go:656-688 | in every possible run, whoever is listed with rights and came by LOGIN has sent the right answer to its last challenge, or the right legacy password, under the name it bears; whoever came by RELOGIN bears a name for which somebody has |
| LobbyProofs.AnswersAreChecked | wlms/client.go:656-679 | in every possible run, an answer that is not the one last asked for ends the connection and changes nothing else; a right one that was only to be checked puts it back into the handshake |
| LobbyProofs.OnlyTheDigestWillDo | wlms/userdb.go:61-83 | from a challenge to its answer, whatever happens in between: any answer but the digest of the challenge and the user's password ends the connection, and the list stays as it is |
| LobbyOutcomes.LoginIsDecided | wlms/client.go:567-710 | in every possible run, how a LOGIN ends: refused, challenged, replacing the preferred connection with its nonce or waiting for it, or entering under the name it asked for or the first free number, with exactly the rights and the nonce that go with it |
| LobbyOutcomes.NameIsKeptIff | wlms/client.go:697-708 | with nobody to replace, whoever is let in keeps its name if and only if no listed player bears it and, for a guest, it is not registered |
| LobbyOutcomes.RightAnswerLogsIn | wlms/client.go:656-668 | in every possible run, the right answer to a LOGIN's challenge goes on with the database's rights for the name, and the name is kept exactly if no listed player bears it |
| LobbyOutcomes.CheckIsDecided | wlms/client.go:618-654 | in every possible run, CHECK_PWD lets nobody in; below version 6 and for unregistered names it is refused, otherwise challenged |
| LobbyOutcomes.SearchPrefers | wlms/server.go:190-225 | the candidate tried first is the last in the list with the wanted name, else the last disconnected one, else the first live one |
| LobbyDepartures.ReloginIsDecided | wlms/client.go:820-885 | in every possible run, a RELOGIN is granted exactly if version, build and nonce are those of the first listed player of the name; then the client becomes that player in everything, at once or when it falls silent |
| LobbyDepartures.NobodyThereIsReplaced | wlms/client.go:316-333 | in every possible run, whoever leaves the list by a step is disconnected when it ends, or is an IRC user taken off by the bridge, or the one client a timer forgets |
| LobbyDepartures.AnswerEndsTheRelogin | wlms/client.go:256-267 | in every possible run, when the client somebody waits for after a RELOGIN says anything, the RELOGIN's connection ends |
| LobbyDepartures.SilenceHandsOver | wlms/client.go:316-333 | in every possible run, whoever waits for a listed client that falls silent takes its place, its name and, after a LOGIN, its game, under its own rights; a LOGIN that has left the handshake ends |
| LobbyDepartures.KickIsDecided | wlms/client.go:460-486 | in every possible run, a kick takes off and disconnects the first listed player of the name unless it is an administrator, and changes nobody else |
| LobbyDepartures.ForgetIsDecided | wlms/client.go:228-235 | in every possible run, the timer that forgets a client unlists it exactly if it is the first listed player of its name |
| LobbyDepartures.LeavingIsFinal | wlms/client.go:547-560 | in every possible run, a client that leaves is unlisted, disconnected and in no game |
| LobbyDepartures.ConnectionsEnd | wlms/client.go:300-314 | in every possible run, a connection nobody waits for ends without touching the list or anybody else, by timeout, silence, end of stream, garbage, or a LOGIN or CHECK_PWD that cannot be unpacked |
| LobbyWaiting.StepForgetsNobodyIff | wlms/client.go:772-781 | from every state a possible run reaches with nobody waiting in vain, a possible step keeps it so if and only if it is no RELOGIN that takes the place of somebody who waits for the same client |
| LobbyWaiting.NobodyWaitsInVainIff | wlms/client.go:256-267 | in a possible run every attempt that has to wait is remembered, in every state, by a client whose answer or silence will decide it, if and only if no RELOGIN of the run displaces somebody |
| LobbyWaiting.SecondReloginDisplaces | wlms/client.go:878-883 | a run of six events in which a second RELOGIN leaves the first one waiting in vain |
| LobbyDepartures.IrcUsersComeAndGo | wlms/server.go:527-542 | in every possible run, an IRC user is listed once per name and taken off by name, and players are left alone |
| LobbyTheorems.OneProbeAtATime | wlms/client.go:256-267 | in every possible run an attempt waits for at most one listed client and is itself not listed; it has a candidate list if and only if it is a LOGIN, and otherwise is a RELOGIN under that client's very name |
| LobbyTheorems.ProbesAreBounded | wlms/client.go:746-782 | in every possible run an attempt has waited for at most as many clients as its search found, the remaining candidates counted in |
| LobbyTheorems.AnswerShortensTheSearch | wlms/client.go:746-782 | in every possible run, a packet from a client somebody waits for ends the attempt or leaves it with strictly fewer candidates |
| LobbyTheorems.SilenceEndsTheSearch | wlms/client.go:316-333 | in every possible run, an unanswered ping or an ended stream ends the attempt of whoever waited, and the silent client is disconnected |
| LobbyTheorems.CandidatesAreExact | wlms/server.go:190-225 | in every valid run the search returns, once each, exactly the listed clients with the nonce for which nobody waits: the name match first, then disconnected ones in reverse list order, then the others in list order |
| LobbyTheorems.FreeNameIsFound | wlms/client.go:784-817 | with fewer than 1000 names registered or in use the search ends with the client listed, without rights, under the least free number |
| LobbyTheorems.StepKeepsNamesIff | wlms/client.go:316-333 | after a valid run, any possible event (answers, failures by ping or stream, on the legacy and on the new path) keeps names unique if and only if it is clean, which can be read off the state before it |
| LobbyTheorems.AlwaysUniqueIffValid | wlms/client.go:746-774 | of the possible runs (no packets handled after a disconnect, no second attempt while waiting), those in which names are unique after every step are exactly the valid ones |
| FreeName.FirstFree | wlms/client.go:788-805 | the least index from k on whose name is unused; all smaller ones are used |
| FreeName.NumberedInjective | wlms/client.go:800-800 | different indices give different names |
| FreeName.GivesUpOnlyWhenFull | wlms/client.go:791-797 | the search gives up if and only if all its thousand names are used, so never with fewer than a thousand in use |
| LobbyTheorems.ListAfterReplacement | wlms/client.go:325-330 | after a replacement the list is the old one without the replaced client and with the newcomer, who bears its name |
| LobbyTheorems.StaleReplacementBreaksUniqueness | wlms/client.go:768-774 | a run of eleven possible events without failure or timeout (a candidate leaves, its name goes to somebody else, and then the probed client answers) that ends with two listed players of one name |
| LobbyLate.LatePacketKeepsNamesIff | wlms/client.go:567-573 | after a valid run, a packet handled for a listed, disconnected client keeps names unique if and only if it is a farewell, or the name it leaves its sender with is no other listed player's |
| LobbyLate.LatePacketKeepsRightsIff | wlms/client.go:567-609 | after a possible run, such a packet leaves everybody with the database's rights if and only if it is a farewell, or its sender ends up without rights or with those of its new name |
| LobbyLate.LateLoginBreaksNames | wlms/client.go:567-578 | a run (two logins, garbage, and a refused LOGIN behind it) after which two listed players have one name |
| LobbyLate.LateLoginBreaksRights | wlms/client.go:567-578 | a run after which a listed administrator bears an unregistered name |
| LobbyInput.LoginIsUnderstood | wlms/client.go:573-587 | the fields a client prints as a LOGIN are taken for exactly that LOGIN, negative versions included |
| LobbyInput.CheckPasswordIsUnderstood | wlms/client.go:623-625 | the same for CHECK_PWD |
| LobbyInput.MalformedLoginStores | wlms/client.go:573-575 | a LOGIN cannot be unpacked if and only if one of its four fields is missing or unreadable, and it renames its sender if and only if its version could be read |
| LobbyAnnouncements.NoticesAlternate | wlms/client.go:195-213 | in every possible run the notices about a player alternate, starting with joining; the last one matches wasAnnounced, and with no announcement pending that matches membership |
| LobbyAnnouncements.AnnouncementsCatchUp | wlms/client.go:195-213 | from every state a possible run reaches, once all pending announcements of a player have fired, what was announced last is whether it is listed |
| LobbyAnnouncements.IrcUsersAreNotAnnounced | wlms/server.go:119-124 | in every possible run there is no notice about an IRC user |
| LobbyAnnouncements.StepTracks | wlms/client.go:200-213 | every possible step keeps: alternation, and an announcement pending wherever wasAnnounced and membership differ |
| LobbyAnnouncements.SpeakersAreAnnounced | wlms/client.go:397-430 | in every possible run, a listed client that has spoken in the chat has been announced as joined, whatever announcements are still to come |
| LobbyScans.SanityCheckIsSilent | wlms/server.go:126-145 | in every valid run no removal, at whatever point of a step, has found a name listed twice |
| LobbyDepartures.SanityCheckWarns | wlms/server.go:126-145 | a removal warns if and only if the name is listed twice, among the players or among the IRC users |
| LobbyServer.Server.AddClient | wlms/server.go:119-124 | appends the client and starts an announcement unless it is an IRC user |
| LobbyServer.Server.RemoveClient | wlms/server.go:126-158 | the loops count the namesakes of both kinds and warn of more than one, unlist the client if it is listed, and start an announcement only then |
| LobbyServer.Server.HasClient | wlms/server.go:160-168 | the loop returns the first listed player of the name |
| LobbyServer.Server.HasIRCClient | wlms/server.go:180-188 | the loop returns the first listed IRC user of the name |
| LobbyServer.Server.HasClientObject | wlms/server.go:170-178 | whether this very object is listed |
| LobbyServer.Server.FindClientsToReplace | wlms/server.go:190-225 | the loop that grows a slice at both ends yields the machine's candidates in their order, all of them listed |
| LobbyServer.Server.LoginDone | wlms/client.go:712-744 | enters the list, or disconnects who is not in the handshake any more |
| LobbyServer.Server.CheckCandidates | wlms/client.go:746-782 | terminates, and takes the machine's step: skip, take over, probe, or search for a name |
| LobbyServer.Server.NextCandidate | wlms/client.go:758-765 | takes the first candidate and drops rights that go with another name |
| LobbyServer.Server.TryNames | wlms/client.go:785-817 | the loop stops at the least free index, or after a thousand names; a listed player always finds itself |
| LobbyServer.Server.FindUnconnectedName | wlms/client.go:784-817 | takes the machine's step although the client's own name changes while the list is searched |
| LobbyServer.Server.FindReplaceCandidates | wlms/client.go:690-710 | takes the machine's step, which `LobbyOutcomes.LoginIsDecided` describes |
| LobbyServer.Server.FailedPong | wlms/client.go:316-333 | disconnects the silent client and puts whoever waited in its place, by the legacy or the new path |
| LobbyServer.Server.SuccessfulRelogin | wlms/client.go:388-395 | the old client leaves the list, the new one enters it |
| LobbyServer.Server.HandleLogin | wlms/client.go:567-616 | takes the machine's step, every error path included |
| LobbyServer.Server.HandleMalformed | wlms/client.go:573-625 | a LOGIN or CHECK_PWD that cannot be unpacked takes the machine's step: what was stored before the error stays, and the client is disconnected |
| LobbyServer.Server.HandleCheckPassword | wlms/client.go:618-641 | takes the machine's step |
| LobbyServer.Server.HandlePassword | wlms/client.go:656-679 | takes the machine's step for all three states, which `LobbyProofs.AnswersAreChecked` describes |
| LobbyServer.Server.HandleRelogin | wlms/client.go:820-885 | takes the machine's step, every error path included |
| LobbyServer.Server.AnnounceNow | wlms/client.go:200-213 | a notice exactly when wasAnnounced and membership differ |
| LobbyServer.Server.Answer | wlms/client.go:256-267 | whoever waits for the sender of a packet is sent on before the packet is handled |
| LobbyServer.Server.Packet | wlms/client.go:242-300 | any packet takes the machine's step; a possible one keeps the core of the invariant, and a clean one the part about names |
| LobbyServer.Server.StreamEnded | wlms/client.go:242-251 | the end of a stream takes the machine's step: nothing when this side had closed the connection; kept invariant as above |
| LobbyServer.Server.PingUnanswered | wlms/client.go:305-311 | an unanswered ping takes the machine's step; kept invariant as above |
| LobbyServer.Server.Forget | wlms/client.go:228-235 | a client is unlisted after a while only if its name still leads to it |
| LobbyServer.Server.HandleRemovalCmd | wlms/client.go:431-493 | kick and ban of a player: only by administrators and never of one, the address is banned for the right time, the player is disconnected and unlisted; otherwise no player is touched |
| LobbyServer.Server.IrcJoin | wlms/server.go:527-536 | an IRC user enters once |
| LobbyServer.Server.IrcLeave | wlms/server.go:537-542 | an IRC user leaves |
| LobbyServer.Server.Shutdown | wlms/server.go:569-574 | the loop leaves nobody listed, exactly those listed before are disconnected |
| Bans.AnswersAreExact | wlms/server.go:247-274 | after any events a question is answered exactly as the whole history of bans answers it, provided no earlier question was asked at a later time |
| Bans.NobodyIsBannedWithoutReason | wlms/server.go:259-274 | whatever the clock does, a ban is answered only if the history holds one that has not expired |
| Bans.LaterQuestionForgives | wlms/server.go:266-268 | without that proviso an unexpired ban can be lost |
| Bans.BansLastAsImposed | wlms/server.go:247-257 | with nothing else in between, a kick is answered for 300 seconds and a ban for 86400, to the second |
| Bans.ScanIs | wlms/server.go:259-274 | one search keeps all unexpired entries, invents none, and answers exactly |
| Bans.BanList.IsBanned | wlms/server.go:259-274 | never answers yes without reason, and answers as the history does under that proviso |
| Bans.BanList.Search | wlms/server.go:259-274 | the loop with its removals and its early return is the specified search |
| Bans.BanList.AddKicked | wlms/server.go:247-251 | five minutes from now |
| Bans.BanList.AddBanned | wlms/server.go:253-257 | twenty-four hours from now |
| ClientsReply.HandleClients | wlms/client.go:997-1042 | the two passes build exactly the reply: sized by the first, filled by the second without leaving the array |
| ClientsReply.CountClients | wlms/client.go:1003-1014 | the first pass counts the clients to mention |
| ClientsReply.WriteRows | wlms/client.go:1015-1040 | the second pass writes one row per client to mention, in list order |
| ClientsReply.ReplyIsFullIff | wlms/client.go:999-1002 | no slot stays empty unless a client of protocol version 4 is told of someone; the length is two plus the fields per client |
| ClientsReply.RepliesAreFull | wlms/client.go:997-1042 | in every possible run every live connection has version 0 or at least 5, and its reply is filled completely |
| ClientsReply.RefusedLoginLeavesItsVersion | wlms/client.go:573-581 | a refused LOGIN of version 4 leaves a disconnected client whose reply would have empty slots as soon as it mentions anyone |
| ClientsReply.ReplySays | wlms/client.go:997-1042 | the reply gives the number of clients shown and then of each, in list order, name, build, game and the permission in words, with an empty field after it for versions below 4; shown are the connected clients that have been announced, the asking one, and no IRC users to version 0 |
| PacketCodec.PacketInBytes | wlms/packet/packet.go:30-62 | the first two bytes are the length, high byte first, and every field stands at its place with a zero byte after it |
| PacketCodec.FlagsInBytes | wlms/packet/packet.go:112-125 | truth values are printed as true and false, and read from 1, true, 0 and false and nothing else |
| PacketCodec.ReadUndoesPrint | wlms/packet/packet.go:64-78 | reading a printed packet in front of anything gives its fields and leaves the rest, if and only if it is non-empty, of at most 65535 bytes, and its strings hold no NUL |
| PacketCodec.StreamRoundTrip | wlms/packet/packet.go:15-78 | any sequence of such packets is read back packet by packet and consumed whole |
| PacketCodec.ReprintAfterRead | wlms/packet/packet.go:34-78 | printing what Read accepted gives the same bytes if and only if the payload ended in NUL, and otherwise loses only the unterminated tail |
| PacketCodec.UnpackStores | wlms/packet/packet.go:80-134 | Unpack succeeds if and only if all fields can be read; what it stores are the fields read, and when it fails one zero value after them |
| PacketCodec.UnpackUndoesTexts | wlms/packet/packet.go:80-134 | unpacking at the matching types recovers ints (negative ones too), bools and strings, and leaves what follows |
| PacketCodec.ValuesSurviveTheWire | wlms/packet/packet.go:15-134 | New, Read and Unpack together are the identity on field values |
| PacketCodec.New | wlms/packet/packet.go:15-62 | the in-place fill of the buffer yields exactly the printed packet |
| PacketCodec.SizeOf | wlms/packet/packet.go:15-32 | the first pass computes the size of the printed packet |
| PacketCodec.Packet.ReadString | wlms/packet/packet.go:127-134 | takes the first field, or fails and takes nothing |
| PacketCodec.Packet.Unpack | wlms/packet/packet.go:80-98 | the loop stores what the specification stores, the zero value at an error included, and stops there |
| GoText.NumeralsInAscii | wlms/packet/packet.go:43-44 | numerals are decimal ASCII digits, with a leading minus |
| GoText.AtoiIsSixtyFourBit | wlms/packet/packet.go:100-110 | a printed integer is read back if it fits into 64 bits, and refused otherwise |
| GoText.AtoiUndoesItoa | wlms/packet/packet.go:100-110 | parsing undoes printing on every 64-bit integer |

## Left out

- Sockets, goroutines, channels, timers and `reflect` dispatch: replaced by atomic steps and logs.
- `wlms/ircbridge.go`, both `main.go`, `wlms/fake_conn.go`: glue around libraries.
- RPC connection, retry and loss in `wlnr/relayinterface`: the two interfaces are joined directly.
- SHA-1, random challenges and SQL in `wlms/userdb.go`: an abstract table and an arbitrary digest function.
- The weekly cleanup of clients beyond a plain disconnect (`Timeout`), and its loop over the games: only the effect of dropping one entry is stated.
- Chat routing, MOTD, ANNOUNCEMENT, status counts, GAMES replies and CLIENTS_UPDATE broadcasts: easy members; of chat, the early announcement of its sender is modelled.
- The measurement of round trip times on the relay: the measured values come with the events.
- The text of error packets to lobby clients: only their effect on the connection is modelled.
- A claim that the relay's 30-second timer removes only its own game: it looks the game up by name, and so does the model.
- Games in the lobby machine are names attached to clients; players of a game are kept in `MetaGames` only.
- LobbyTheorems.NamesAreUnique: speaks of valid runs only, because in every other possible run it is false at some step (`AlwaysUniqueIffValid`).
- LobbyServer.Server.HandleLogin: whether the address is banned comes with the packet; `Bans` answers that question.
- Packets still buffered when a connection is closed: handled by the machine and by `LobbyLate`, outside the theorems about possible runs.
- LobbyServer.Server.Shutdown: not an event of the lobby machine, so the theorems about notices do not cover it.
