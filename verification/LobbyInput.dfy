/** From the fields of a packet to the lobby's commands about logging in (wlms/client.go): what Unpack
    stores, whether it succeeds or not. */
module LobbyInput {
  import opened GoText
  import opened PacketCodec
  import M = LobbyModel

  function Number(fs: seq<Field>, k: nat): int {
    if k < |fs| && fs[k].Num? then fs[k].n else 0
  }

  function String(fs: seq<Field>, k: nat): Option<Text> {
    if k < |fs| && fs[k].Str? then Some(fs[k].t) else None
  }

  function StringOr(fs: seq<Field>, k: nat): Text {
    if String(fs, k).Some? then String(fs, k).value else []
  }

  function FlagAt(fs: seq<Field>, k: nat): bool {
    k < |fs| && fs[k].Flag? && fs[k].b
  }

  // The next field, if there is one.
  function Next(raw: seq<Text>): Option<Text> {
    if raw == [] then None else Some(raw[0])
  }

  const LOGIN_FIELDS := [NumKind, StrKind, StrKind, FlagKind]
  const CHECK_FIELDS := [NumKind, StrKind, StrKind]

  // A LOGIN whose fields are raw. Version, name and build go straight to the client as they are read.
  function LoginOf(raw: seq<Text>, banned: bool, challenge: Option<Text>): M.Command {
    var r := UnpackAll(LOGIN_FIELDS, raw);
    if r.ok
    then M.Login(Number(r.stored, 0), StringOr(r.stored, 1), StringOr(r.stored, 2), FlagAt(r.stored, 3),
      Next(r.left), banned, challenge)
    else M.Malformed(Number(r.stored, 0), String(r.stored, 1), String(r.stored, 2))
  }

  function CheckPasswordOf(raw: seq<Text>, challenge: Option<Text>): M.Command {
    var r := UnpackAll(CHECK_FIELDS, raw);
    if r.ok then M.CheckPassword(Number(r.stored, 0), StringOr(r.stored, 1), StringOr(r.stored, 2), challenge)
    else M.Malformed(Number(r.stored, 0), String(r.stored, 1), String(r.stored, 2))
  }

  // What a client sends as a LOGIN is what the server takes it for, whatever follows the nonce.
  lemma LoginIsUnderstood(
    version: int, name: Text, build: Text, registered: bool, rest: seq<Text>, banned: bool, challenge: Option<Text>)
    requires MIN_INT <= version <= MAX_INT
    ensures
      LoginOf(Texts([Num(version), Str(name), Str(build), Flag(registered)]) + rest, banned, challenge)
        == M.Login(version, name, build, registered, Next(rest), banned, challenge)
  {
    var fs := [Num(version), Str(name), Str(build), Flag(registered)];
    assert Kinds(fs) == LOGIN_FIELDS;
    UnpackUndoesTexts(fs, rest);
  }

  lemma CheckPasswordIsUnderstood(version: int, name: Text, build: Text, rest: seq<Text>, challenge: Option<Text>)
    requires MIN_INT <= version <= MAX_INT
    ensures
      CheckPasswordOf(Texts([Num(version), Str(name), Str(build)]) + rest, challenge)
        == M.CheckPassword(version, name, build, challenge)
  {
    var fs := [Num(version), Str(name), Str(build)];
    assert Kinds(fs) == CHECK_FIELDS;
    UnpackUndoesTexts(fs, rest);
  }

  // A LOGIN is malformed exactly if one of its first four fields is missing or cannot be read. Its
  // sender is renamed by it exactly if the version could be read: to the second field, or, when that
  // is missing, to nothing.
  lemma MalformedLoginStores(raw: seq<Text>, banned: bool, challenge: Option<Text>)
    ensures
      var cmd := LoginOf(raw, banned, challenge);
      && (cmd.Malformed? <==>
            |raw| < 4 || ReadField(NumKind, raw[0]) == None || ReadField(FlagKind, raw[3]) == None)
      && (cmd.Malformed? ==>
            && (cmd.gotName.Some? <==> raw != [] && ReadField(NumKind, raw[0]).Some?)
            && (cmd.gotName.Some? ==> cmd.gotName.value == if |raw| > 1 then raw[1] else [])
            && (cmd.gotName == None ==> cmd.version == 0))
  {
    UnpackStores(LOGIN_FIELDS, raw);
    var r := UnpackAll(LOGIN_FIELDS, raw);
    assert |r.stored| > 0;
    assert forall k :: 0 <= k < |r.stored| ==> FieldKind(r.stored[k]) == LOGIN_FIELDS[k] by {
      StoredKinds(LOGIN_FIELDS, raw);
    }
  }

  lemma {:induction false} StoredKinds(kinds: seq<Kind>, raw: seq<Text>)
    ensures
      var r := UnpackAll(kinds, raw);
      |r.stored| <= |kinds| && forall k :: 0 <= k < |r.stored| ==> FieldKind(r.stored[k]) == kinds[k]
    decreases |kinds|
  {
    if kinds != [] && raw != [] && ReadField(kinds[0], raw[0]).Some? { StoredKinds(kinds[1..], raw[1..]); }
  }
}
