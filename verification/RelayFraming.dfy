/** The relay's wire format: commands it builds (wlnr/command.go, wlnr/command_codes.go) and the
    readers it uses on what it receives (wlnr/client.go). */
module RelayFraming {
  import opened GoText

  const PROTOCOL_VERSION: byte := 1

  const HELLO: byte := 1
  const WELCOME: byte := 2
  const DISCONNECT: byte := 3
  const PING: byte := 4
  const PONG: byte := 5
  const RTT_REQUEST: byte := 6
  const RTT_RESPONSE: byte := 7
  const CONNECT_CLIENT: byte := 11
  const DISCONNECT_CLIENT: byte := 12
  const TO_CLIENTS: byte := 13
  const FROM_CLIENT: byte := 14
  const TO_HOST: byte := 21
  const FROM_HOST: byte := 22

  datatype Rtt = Rtt(id: byte, ms: byte, s: byte)

  // math.Min(n, 255), as a byte
  function Clamp(n: nat): byte {
    if n > 255 then 255 else n as byte
  }

  // Everything the relay sends.
  datatype Command =
    | Welcome(version: byte, name: Text)
    | Disconnect(reason: Text)
    | Ping(number: byte)
    | RttResponse(count: byte, rtts: seq<Rtt>)
    | ConnectClient(id: byte)
    | DisconnectClient(id: byte)
    | FromClient(id: byte, packet: Text)
    | FromHost(packet: Text)

  function RttBytes(rtts: seq<Rtt>): Text {
    if rtts == [] then [] else [rtts[0].id, rtts[0].ms, rtts[0].s] + RttBytes(rtts[1..])
  }

  function Bytes(cmd: Command): Text {
    match cmd
    case Welcome(version, name) => [WELCOME, version] + name + [NUL]
    case Disconnect(reason) => [DISCONNECT] + reason + [NUL]
    case Ping(number) => [PING, number]
    case RttResponse(count, rtts) => [RTT_RESPONSE, count] + RttBytes(rtts)
    case ConnectClient(id) => [CONNECT_CLIENT, id]
    case DisconnectClient(id) => [DISCONNECT_CLIENT, id]
    case FromClient(id, packet) => [FROM_CLIENT, id] + packet
    case FromHost(packet) => [FROM_HOST] + packet
  }

  // ---------------------------------------------------------------- readers

  // A value read from the front of the stream and what is left; None when the stream is too short
  // or the value is malformed.
  type Taken<T> = Option<(T, Text)>

  function TakeByte(input: Text): Taken<byte> {
    if input == [] then None else Some((input[0], input[1..]))
  }

  function TakeString(input: Text): Taken<Text> {
    var i := BeforeNul(input);
    if i == |input| then None else Some((input[..i], input[i + 1..]))
  }

  // A packet carries its own length, two bytes included, and is handed on with it.
  function TakePacket(input: Text): Taken<Text> {
    if |input| < 2 then None
    else
      var length := input[0] as int * 256 + input[1] as int;
      if length < 2 || |input| < length then None else Some((input[..length], input[length..]))
  }

  ghost predicate Framed(packet: Text) {
    |packet| >= 2 && packet[0] as int * 256 + packet[1] as int == |packet|
  }

  // Destination ids up to the terminating 0.
  function TakeIds(input: Text): Taken<seq<byte>> {
    if input == [] then None
    else if input[0] == 0 then Some(([], input[1..]))
    else
      match TakeIds(input[1..])
      case None => None
      case Some((ids, rest)) => Some(([input[0]] + ids, rest))
  }

  function TakeRtts(n: nat, input: Text): Taken<seq<Rtt>>
    decreases n
  {
    if n == 0 then Some(([], input))
    else if |input| < 3 then None
    else
      match TakeRtts(n - 1, input[3..])
      case None => None
      case Some((rtts, rest)) => Some(([Rtt(input[0], input[1], input[2])] + rtts, rest))
  }

  function TakeNamed(input: Text, make: Text -> Command): Taken<Command> {
    match TakeString(input) case None => None case Some((t, rest)) => Some((make(t), rest))
  }

  function TakeFramed(input: Text, make: Text -> Command): Taken<Command> {
    match TakePacket(input) case None => None case Some((p, rest)) => Some((make(p), rest))
  }

  // What the other side makes of the bytes of one command.
  function TakeCommand(input: Text): Taken<Command> {
    if input == [] then None
    else if input[0] == DISCONNECT then TakeNamed(input[1..], t => Disconnect(t))
    else if input[0] == FROM_HOST then TakeFramed(input[1..], p => FromHost(p))
    else if |input| < 2 then None
    else
      var arg, rest := input[1], input[2..];
      if input[0] == WELCOME then TakeNamed(rest, t => Welcome(arg, t))
      else if input[0] == PING then Some((Ping(arg), rest))
      else if input[0] == CONNECT_CLIENT then Some((ConnectClient(arg), rest))
      else if input[0] == DISCONNECT_CLIENT then Some((DisconnectClient(arg), rest))
      else if input[0] == FROM_CLIENT then TakeFramed(rest, p => FromClient(arg, p))
      else if input[0] == RTT_RESPONSE then
        (match TakeRtts(arg as int, rest)
         case None => None
         case Some((rtts, left)) => Some((RttResponse(arg, rtts), left)))
      else None
  }

  function TakeCommands(input: Text): (seq<Command>, Text)
    decreases |input|
  {
    match TakeCommand(input)
    case None => ([], input)
    case Some((cmd, rest)) =>
      if |rest| < |input| then
        var (more, left) := TakeCommands(rest);
        ([cmd] + more, left)
      else ([], input)
  }

  // ---------------------------------------------------------------- unique decoding

  ghost predicate WellFormed(cmd: Command) {
    match cmd
    case Welcome(_, name) => NUL !in name
    case Disconnect(reason) => NUL !in reason
    case RttResponse(count, rtts) => count as int == |rtts|
    case FromClient(_, packet) => Framed(packet)
    case FromHost(packet) => Framed(packet)
    case _ => true
  }

  lemma StringIsTakenBack(t: Text, rest: Text)
    ensures TakeString(t + [NUL] + rest) == Some((t, rest)) <==> NUL !in t
  {
    var input := t + [NUL] + rest;
    if NUL !in t {
      BeforeFirstNul(t, rest);
      assert input[..|t|] == t && input[|t| + 1..] == rest;
    }
  }

  lemma PacketIsTakenBack(p: Text, rest: Text)
    requires |p| >= 2
    ensures TakePacket(p + rest) == Some((p, rest)) <==> Framed(p)
  {
    assert (p + rest)[..|p|] == p && (p + rest)[|p|..] == rest;
  }

  lemma ShortPacketIsNotTakenBack(p: Text, rest: Text)
    requires |p| < 2
    ensures TakePacket(p + rest) != Some((p, rest))
  {
  }

  // ReadPacket accepts exactly a framed packet at the front and returns its bytes unchanged.
  lemma PacketIsTransparent(input: Text)
    ensures
      match TakePacket(input)
      case Some((p, rest)) => Framed(p) && input == p + rest
      case None => forall p: Text, rest: Text | input == p + rest :: !Framed(p)
  {
    match TakePacket(input)
    case Some((p, rest)) => assert input == p + rest;
    case None =>
      forall p: Text, rest: Text | input == p + rest ensures !Framed(p) {
        if |p| >= 2 { PacketIsTakenBack(p, rest); }
      }
  }

  lemma OneMoreRtt(r: Rtt, n: nat, more: Text)
    requires TakeRtts(n, more).Some?
    ensures
      var (rtts, rest) := TakeRtts(n, more).value;
      TakeRtts(n + 1, [r.id, r.ms, r.s] + more) == Some(([r] + rtts, rest))
  {
    assert ([r.id, r.ms, r.s] + more)[3..] == more;
  }

  lemma RttBytesInFront(r: Rtt, tail: seq<Rtt>, rest: Text)
    ensures RttBytes([r] + tail) + rest == [r.id, r.ms, r.s] + (RttBytes(tail) + rest)
  {
    assert ([r] + tail)[1..] == tail;
  }

  lemma {:induction false} RttsAreTakenBack(rtts: seq<Rtt>, rest: Text)
    ensures TakeRtts(|rtts|, RttBytes(rtts) + rest) == Some((rtts, rest))
  {
    if rtts == [] {
      assert RttBytes(rtts) + rest == rest;
    } else {
      var r, tail := rtts[0], rtts[1..];
      RttsAreTakenBack(tail, rest);
      OneMoreRtt(r, |tail|, RttBytes(tail) + rest);
      RttBytesInFront(r, tail, rest);
      assert rtts == [r] + tail;
    }
  }

  lemma {:induction false} RttCount(n: nat, input: Text)
    ensures TakeRtts(n, input).Some? ==> |TakeRtts(n, input).value.0| == n
  {
    if n > 0 && |input| >= 3 {
      RttCount(n - 1, input[3..]);
    }
  }

  lemma NamedIsTakenBack(cmd: Command, rest: Text)
    requires cmd.Welcome? || cmd.Disconnect?
    ensures TakeCommand(Bytes(cmd) + rest) == Some((cmd, rest)) <==> WellFormed(cmd)
  {
    var input := Bytes(cmd) + rest;
    match cmd
    case Welcome(_, name) =>
      assert input[2..] == name + [NUL] + rest;
      StringIsTakenBack(name, rest);
    case Disconnect(reason) =>
      assert input[1..] == reason + [NUL] + rest;
      StringIsTakenBack(reason, rest);
  }

  lemma AnyPacketIsTakenBack(p: Text, rest: Text)
    ensures TakePacket(p + rest) == Some((p, rest)) <==> Framed(p)
  {
    if |p| >= 2 {
      PacketIsTakenBack(p, rest);
    } else {
      ShortPacketIsNotTakenBack(p, rest);
    }
  }

  lemma FromClientIsTakenBack(id: byte, p: Text, rest: Text)
    ensures TakeCommand(Bytes(FromClient(id, p)) + rest) == Some((FromClient(id, p), rest)) <==> Framed(p)
  {
    assert (Bytes(FromClient(id, p)) + rest)[2..] == p + rest;
    AnyPacketIsTakenBack(p, rest);
  }

  lemma FromHostIsTakenBack(p: Text, rest: Text)
    ensures TakeCommand(Bytes(FromHost(p)) + rest) == Some((FromHost(p), rest)) <==> Framed(p)
  {
    assert (Bytes(FromHost(p)) + rest)[1..] == p + rest;
    AnyPacketIsTakenBack(p, rest);
  }

  lemma RttIsTakenBack(cmd: Command, rest: Text)
    requires cmd.RttResponse?
    ensures TakeCommand(Bytes(cmd) + rest) == Some((cmd, rest)) <==> WellFormed(cmd)
  {
    var input := Bytes(cmd) + rest;
    assert input[2..] == RttBytes(cmd.rtts) + rest;
    RttCount(cmd.count as int, input[2..]);
    RttsAreTakenBack(cmd.rtts, rest);
  }

  // A command in front of anything is decoded to itself, exactly when its strings hold no NUL, its
  // packet carries its own length and its count byte is right.
  lemma CommandIsTakenBack(cmd: Command, rest: Text)
    ensures TakeCommand(Bytes(cmd) + rest) == Some((cmd, rest)) <==> WellFormed(cmd)
  {
    match cmd
    case Welcome(_, _) => NamedIsTakenBack(cmd, rest);
    case Disconnect(_) => NamedIsTakenBack(cmd, rest);
    case FromClient(id, packet) => FromClientIsTakenBack(id, packet, rest);
    case FromHost(packet) => FromHostIsTakenBack(packet, rest);
    case RttResponse(_, _) => RttIsTakenBack(cmd, rest);
    case _ => assert (Bytes(cmd) + rest)[2..] == rest;
  }

  function AllBytes(cmds: seq<Command>): Text {
    if cmds == [] then [] else Bytes(cmds[0]) + AllBytes(cmds[1..])
  }

  lemma OneMoreCommand(cmd: Command, more: Text)
    requires WellFormed(cmd)
    ensures TakeCommands(Bytes(cmd) + more) == ([cmd] + TakeCommands(more).0, TakeCommands(more).1)
  {
    CommandIsTakenBack(cmd, more);
    assert |Bytes(cmd)| > 0;
  }

  // A concatenation of emitted commands decodes to the same commands and is consumed whole.
  lemma {:induction false} CommandsAreTakenBack(cmds: seq<Command>)
    requires forall i :: 0 <= i < |cmds| ==> WellFormed(cmds[i])
    ensures TakeCommands(AllBytes(cmds)) == (cmds, [])
  {
    if cmds != [] {
      OneMoreCommand(cmds[0], AllBytes(cmds[1..]));
      CommandsAreTakenBack(cmds[1..]);
      assert cmds == [cmds[0]] + cmds[1..];
    }
  }

  // ---------------------------------------------------------------- what the relay receives

  // The destinations end at the first 0, which is therefore never an id.
  lemma {:induction false} IdsAreTakenBack(input: Text)
    ensures
      match TakeIds(input)
      case Some((ids, rest)) => 0 !in ids && input == ids + [0] + rest
      case None => 0 !in input
  {
    if input != [] && input[0] != 0 {
      IdsAreTakenBack(input[1..]);
      assert input == [input[0]] + input[1..];
    }
  }

  // One round of handleClientMessages or handleHostMessages on the bytes at hand. A command byte
  // without a case in the switch is skipped.
  datatype Message =
    | ToHost(packet: Text)
    | ToClients(ids: seq<byte>, packet: Text)
    | Leave
    | Pong(number: byte)
    | AskRtts
    | Skipped(command: byte)
    | Violation
    | EndOfInput

  // The message and the bytes left after it.
  function ClientMessage(input: Text): (Message, Text) {
    if input == [] then (EndOfInput, [])
    else
      var rest := input[1..];
      if input[0] == TO_HOST then
        (match TakePacket(rest) case None => (Violation, rest) case Some((p, left)) => (ToHost(p), left))
      else if input[0] == DISCONNECT then (Leave, rest)
      else if input[0] == PONG then
        (match TakeByte(rest) case None => (Violation, rest) case Some((n, left)) => (Pong(n), left))
      else if input[0] == RTT_REQUEST then (AskRtts, rest)
      else (Skipped(input[0]), rest)
  }

  function HostMessage(input: Text): (Message, Text) {
    if input == [] || input[0] != TO_CLIENTS then
      if input != [] && input[0] == TO_HOST then (Skipped(TO_HOST), input[1..]) else ClientMessage(input)
    else
      match TakeIds(input[1..])
      case None => (Violation, input[1..])
      case Some((ids, rest)) =>
        match TakePacket(rest)
        case None => (Violation, rest)
        case Some((p, left)) => (ToClients(ids, p), left)
  }

  lemma {:induction false} IdsInFront(ids: seq<byte>, rest: Text)
    requires 0 !in ids
    ensures TakeIds(ids + [0] + rest) == Some((ids, rest))
  {
    if ids == [] {
      assert ids + [0] + rest == [0] + rest;
    } else {
      IdsInFront(ids[1..], rest);
      assert (ids + [0] + rest)[1..] == ids[1..] + [0] + rest;
      assert ids == [ids[0]] + ids[1..];
    }
  }

  // ---------------------------------------------------------------- the code

  // wlnr/command.go: a command grows by appending to its data.
  class Buffer {
    var data: Text

    constructor (c: byte)
      ensures data == [c]
    {
      data := [c];
    }

    method AppendUInt(n: byte)
      modifies this
      ensures data == old(data) + [n]
    {
      data := data + [n];
    }

    method AppendBytes(b: Text)
      modifies this
      ensures data == old(data) + b
    {
      data := data + b;
    }

    method AppendString(str: Text)
      modifies this
      ensures data == old(data) + str + [NUL]
    {
      data := data + str;
      data := data + [NUL];
    }
  }

  // The commands the relay builds with it.

  method WelcomeCommand(version: byte, name: Text) returns (cmd: Buffer)
    ensures cmd.data == Bytes(Welcome(version, name))
  {
    cmd := new Buffer(WELCOME);
    cmd.AppendUInt(version);
    cmd.AppendString(name);
  }

  method DisconnectCommand(reason: Text) returns (cmd: Buffer)
    ensures cmd.data == Bytes(Disconnect(reason))
  {
    cmd := new Buffer(DISCONNECT);
    cmd.AppendString(reason);
  }

  method PingCommand(number: byte) returns (cmd: Buffer)
    ensures cmd.data == Bytes(Ping(number))
  {
    cmd := new Buffer(PING);
    cmd.AppendUInt(number);
  }

  method ConnectCommand(id: byte, connect: bool) returns (cmd: Buffer)
    ensures cmd.data == Bytes(if connect then ConnectClient(id) else DisconnectClient(id))
  {
    cmd := new Buffer(if connect then CONNECT_CLIENT else DISCONNECT_CLIENT);
    cmd.AppendUInt(id);
  }

  method FromClientCommand(id: byte, packet: Text) returns (cmd: Buffer)
    ensures cmd.data == Bytes(FromClient(id, packet))
  {
    cmd := new Buffer(FROM_CLIENT);
    cmd.AppendUInt(id);
    cmd.AppendBytes(packet);
  }

  method FromHostCommand(packet: Text) returns (cmd: Buffer)
    ensures cmd.data == Bytes(FromHost(packet))
  {
    cmd := new Buffer(FROM_HOST);
    cmd.AppendBytes(packet);
  }

  lemma {:induction false} RttBytesOfAppend(rtts: seq<Rtt>, r: Rtt)
    ensures RttBytes(rtts + [r]) == RttBytes(rtts) + [r.id, r.ms, r.s]
  {
    if rtts != [] {
      RttBytesOfAppend(rtts[1..], r);
      assert (rtts + [r])[1..] == rtts[1..] + [r];
    }
  }

  // A member with the milliseconds its last ping took and the seconds since its last pong.
  datatype Timed = Timed(id: byte, ms: nat, s: nat)

  function Triple(m: Timed): Rtt {
    Rtt(m.id, Clamp(m.ms), Clamp(m.s))
  }

  function TriplesOf(ms: seq<Timed>): (rtts: seq<Rtt>)
    ensures |rtts| == |ms| && forall k :: 0 <= k < |ms| ==> rtts[k] == Triple(ms[k])
  {
    seq(|ms|, k requires 0 <= k < |ms| => Triple(ms[k]))
  }

  // addClientRTT
  method AddClientRtt(cmd: Buffer, m: Timed)
    modifies cmd
    ensures cmd.data == old(cmd.data) + RttBytes([Triple(m)])
  {
    cmd.AppendUInt(m.id);
    cmd.AppendUInt(Clamp(m.ms));
    cmd.AppendUInt(Clamp(m.s));
    assert RttBytes([Triple(m)]) == [m.id, Clamp(m.ms), Clamp(m.s)] + RttBytes([]);
  }

  lemma OneMoreTriple(ms: seq<Timed>, m: Timed)
    ensures RttBytes(TriplesOf(ms + [m])) == RttBytes(TriplesOf(ms)) + RttBytes([Triple(m)])
  {
    RttBytesOfAppend(TriplesOf(ms), Triple(m));
    assert TriplesOf(ms + [m]) == TriplesOf(ms) + [Triple(m)];
    assert RttBytes([Triple(m)]) == [m.id, Clamp(m.ms), Clamp(m.s)] + RttBytes([]);
  }

  // The command sendRTTs builds for a game's host, if there is one, and its clients: it counts
  // them in a first pass, cuts the count to a byte, and appends a triple each in a second.
  method RttCommand(host: Option<Timed>, clients: seq<Timed>) returns (cmd: Buffer)
    ensures
      var ms := (if host.Some? then [host.value] else []) + clients;
      cmd.data == Bytes(RttResponse((|ms| % 256) as byte, TriplesOf(ms)))
  {
    var count := if host.Some? then 1 else 0;
    for k := 0 to |clients|
      invariant count == k + if host.Some? then 1 else 0
    {
      count := count + 1;
    }
    cmd := new Buffer(RTT_RESPONSE);
    cmd.AppendUInt((count % 256) as byte);
    ghost var front := cmd.data;
    ghost var done: seq<Timed> := [];
    assert front == front + RttBytes(TriplesOf(done));
    if host.Some? {
      OneMoreTriple(done, host.value);
      AddClientRtt(cmd, host.value);
      done := done + [host.value];
    }
    AddAll(cmd, front, done, clients);
    assert done + clients == (if host.Some? then [host.value] else []) + clients;
    assert front == [RTT_RESPONSE, (count % 256) as byte];
  }

  method AddAll(cmd: Buffer, ghost front: Text, ghost done: seq<Timed>, clients: seq<Timed>)
    requires cmd.data == front + RttBytes(TriplesOf(done))
    modifies cmd
    ensures cmd.data == front + RttBytes(TriplesOf(done + clients))
  {
    assert done + clients[..0] == done;
    for k := 0 to |clients|
      invariant cmd.data == front + RttBytes(TriplesOf(done + clients[..k]))
    {
      OneMoreTriple(done + clients[..k], clients[k]);
      assert done + clients[..k + 1] == done + clients[..k] + [clients[k]];
      AddClientRtt(cmd, clients[k]);
    }
    assert clients[..|clients|] == clients;
  }

  // The unread input of a connection, and the readers of wlnr/client.go on it.
  class Reader {
    var unread: Text

    constructor (input: Text)
      ensures unread == input
    {
      unread := input;
    }

    method ReadUint8() returns (b: Option<byte>)
      modifies this
      ensures
        match TakeByte(old(unread))
        case Some((v, rest)) => b == Some(v) && unread == rest
        case None => b == None
    {
      if unread == [] {
        return None;
      }
      b := Some(unread[0]);
      unread := unread[1..];
    }

    // Up to the next NUL; a string the stream ends in is lost.
    method ReadString() returns (t: Option<Text>)
      modifies this
      ensures
        match TakeString(old(unread))
        case Some((v, rest)) => t == Some(v) && unread == rest
        case None => t == None
    {
      var i := BeforeNul(unread);
      if i == |unread| {
        unread := [];
        return None;
      }
      t := Some(unread[..i]);
      unread := unread[i + 1..];
    }

    // Collects destination ids up to the terminating 0.
    method ReadIds() returns (ids: Option<seq<byte>>)
      modifies this
      ensures
        match TakeIds(old(unread))
        case Some((v, rest)) => ids == Some(v) && unread == rest
        case None => ids == None
    {
      var got: seq<byte> := [];
      ghost var input := unread;
      assert got + unread == input;
      while true
        invariant 0 !in got && got + unread == input
        decreases |unread|
      {
        var id := ReadUint8();
        if id == None {
          IdsAreTakenBack(input);
          assert got == input;
          return None;
        }
        assert input == got + [id.value] + unread;
        if id.value == 0 {
          IdsInFront(got, unread);
          return Some(got);
        }
        got := got + [id.value];
      }
    }

    method ReadPacket() returns (p: Option<Text>)
      modifies this
      ensures
        match TakePacket(old(unread))
        case Some((v, rest)) => p == Some(v) && unread == rest
        case None => p == None
    {
      var high := ReadUint8();
      if high == None {
        return None;
      }
      var low := ReadUint8();
      if low == None {
        return None;
      }
      ghost var after := unread;
      assert old(unread) == [high.value, low.value] + after;
      var length := high.value as int * 256 + low.value as int;
      if length < 2 || |unread| < length - 2 {
        return None;
      }
      p := Some([high.value, low.value] + unread[..length - 2]);
      unread := unread[length - 2..];
      assert old(unread) == p.value + unread by {
        assert after == after[..length - 2] + after[length - 2..];
      }
      assert old(unread)[..length] == p.value && old(unread)[length..] == unread;
    }
  }
}
