/** The metaserver's packets (wlms/packet/packet.go): a two-byte big-endian length that counts
    itself, then every field followed by NUL. */
module PacketCodec {
  import opened GoText

  // An argument of New, or the target of a pointer handed to Unpack.
  datatype Field = Num(n: int) | Str(t: Text) | Flag(b: bool)
  datatype Kind = NumKind | StrKind | FlagKind

  function FieldText(f: Field): Text {
    match f
    case Num(n) => Itoa(n)
    case Str(t) => t
    case Flag(b) => if b then Ascii("true") else Ascii("false")
  }

  function FieldKind(f: Field): Kind {
    match f
    case Num(_) => NumKind
    case Str(_) => StrKind
    case Flag(_) => FlagKind
  }

  function Texts(fs: seq<Field>): seq<Text> {
    seq(|fs|, i requires 0 <= i < |fs| => FieldText(fs[i]))
  }

  // The payload that carries the given field texts.
  function Body(ts: seq<Text>): Text {
    if ts == [] then [] else ts[0] + [NUL] + Body(ts[1..])
  }

  function Header(size: nat): Text {
    [((size / 256) % 256) as byte, (size % 256) as byte]
  }

  function Print(ts: seq<Text>): Text {
    Header(2 + |Body(ts)|) + Body(ts)
  }

  // ---------------------------------------------------------------- reading

  datatype ReadError = EndOfStream | TooShort
  datatype ReadResult = Parsed(fields: seq<Text>, rest: Text) | Failed(error: ReadError)

  // strings.Split(p, "\x00")
  function Split(p: Text): (parts: seq<Text>)
    ensures parts != []
    decreases |p|
  {
    var i := BeforeNul(p);
    if i == |p| then [p] else [p[..i]] + Split(p[i + 1..])
  }

  function Fields(p: Text): seq<Text> {
    Split(p)[..|Split(p)| - 1]
  }

  // One call of Read on a stream that will deliver exactly `input` and then end.
  function Read(input: Text): ReadResult {
    if |input| < 2 then Failed(EndOfStream)
    else
      var size := input[0] as int * 256 + input[1] as int;
      if size <= 2 then Failed(TooShort)
      else if |input| < size then Failed(EndOfStream)
      else Parsed(Fields(input[2..size]), input[size..])
  }

  // Reads packets until one cannot be read, as the reading loop of a connection does.
  function ReadAll(input: Text): (seq<seq<Text>>, Text)
    decreases |input|
  {
    match Read(input)
    case Failed(_) => ([], input)
    case Parsed(fields, rest) =>
      var (more, left) := ReadAll(rest);
      ([fields] + more, left)
  }

  // ---------------------------------------------------------------- printing and reading back

  ghost predicate NulFree(ts: seq<Text>) {
    forall i :: 0 <= i < |ts| ==> NUL !in ts[i]
  }

  // What a packet must satisfy for Read to give it back.
  ghost predicate Printable(ts: seq<Text>) {
    ts != [] && 2 + |Body(ts)| <= 0xffff && NulFree(ts)
  }

  lemma SplitOne(t: Text, rest: Text)
    requires NUL !in t
    ensures Split(t + [NUL] + rest) == [t] + Split(rest)
  {
    var p := t + [NUL] + rest;
    BeforeFirstNul(t, rest);
    assert p[..|t|] == t && p[|t| + 1..] == rest;
  }

  lemma SplitNext(t: Text, rest: Text, parts: seq<Text>)
    requires NUL !in t && Split(rest) == parts
    ensures Split(t + [NUL] + rest) == [t] + parts
  {
    SplitOne(t, rest);
  }

  lemma FirstAndRest<T>(s: seq<T>, x: T)
    requires s != []
    ensures [s[0]] + (s[1..] + [x]) == s + [x]
  {
  }

  lemma {:induction false} SplitBody(ts: seq<Text>)
    requires NulFree(ts)
    ensures Split(Body(ts)) == ts + [[]]
  {
    if ts != [] {
      SplitBody(ts[1..]);
      SplitNext(ts[0], Body(ts[1..]), ts[1..] + [[]]);
      FirstAndRest(ts, []);
    }
  }

  lemma {:induction false} PartsAreNulFree(p: Text)
    ensures NulFree(Split(p))
    decreases |p|
  {
    var i := BeforeNul(p);
    if i < |p| {
      PartsAreNulFree(p[i + 1..]);
    } else {
      assert p[..i] == p;
    }
  }

  ghost function Join(parts: seq<Text>): Text
    requires parts != []
  {
    if |parts| == 1 then parts[0] else parts[0] + [NUL] + Join(parts[1..])
  }

  lemma {:induction false} JoinUndoesSplit(p: Text)
    ensures Join(Split(p)) == p
    decreases |p|
  {
    var i := BeforeNul(p);
    if i < |p| {
      var q := p[i + 1..];
      JoinUndoesSplit(q);
      assert Split(p)[1..] == Split(q);
      assert p == p[..i] + [NUL] + q;
    }
  }

  lemma {:induction false} JoinIsBodyAndTail(parts: seq<Text>)
    requires parts != []
    ensures Join(parts) == Body(parts[..|parts| - 1]) + parts[|parts| - 1]
  {
    if |parts| > 1 {
      JoinIsBodyAndTail(parts[1..]);
      assert parts[..|parts| - 1][1..] == parts[1..][..|parts| - 2];
    }
  }

  // Splitting loses nothing: the printed fields and the last part are the payload again.
  lemma SplitLosesNothing(p: Text)
    ensures Body(Fields(p)) + Split(p)[|Split(p)| - 1] == p
  {
    JoinUndoesSplit(p);
    JoinIsBodyAndTail(Split(p));
  }

  lemma HeaderLength(size: nat)
    ensures Header(size)[0] as int * 256 + Header(size)[1] as int == size % 0x10000
  {
    assert size % 0x10000 == ((size / 256) % 256) * 256 + size % 256;
  }

  lemma PrintedLength(ts: seq<Text>, rest: Text)
    ensures
      var input, size := Print(ts) + rest, 2 + |Body(ts)|;
      && |input| == size + |rest|
      && input[0] as int * 256 + input[1] as int == size % 0x10000
      && input[2..size] == Body(ts)
      && input[size..] == rest
  {
    HeaderLength(2 + |Body(ts)|);
  }

  lemma PrintableIsReadBack(ts: seq<Text>, rest: Text)
    requires Printable(ts)
    ensures Read(Print(ts) + rest) == Parsed(ts, rest)
  {
    PrintedLength(ts, rest);
    BodyIsSplit(ts);
    ReadOf(Print(ts) + rest, Body(ts), rest);
  }

  lemma ReadOf(input: Text, body: Text, rest: Text)
    requires body != [] && |input| == 2 + |body| + |rest|
    requires input[0] as int * 256 + input[1] as int == 2 + |body|
    requires input[2..2 + |body|] == body && input[2 + |body|..] == rest
    ensures Read(input) == Parsed(Fields(body), rest)
  {
  }

  lemma BodyIsSplit(ts: seq<Text>)
    requires ts != [] && NulFree(ts)
    ensures Fields(Body(ts)) == ts && |Body(ts)| > 0
  {
    SplitBody(ts);
  }

  lemma ReadBackIsPrintable(ts: seq<Text>, rest: Text)
    requires Read(Print(ts) + rest) == Parsed(ts, rest)
    ensures Printable(ts)
  {
    PrintedLength(ts, rest);
    var input, size := Print(ts) + rest, 2 + |Body(ts)|;
    assert |input[size % 0x10000..]| == |rest|;
    PartsAreNulFree(Body(ts));
  }

  // Reading back a printed packet, in front of anything, gives its fields and leaves exactly what
  // followed -- precisely for non-empty packets of at most 65535 bytes whose strings hold no NUL.
  lemma ReadUndoesPrint(ts: seq<Text>, rest: Text)
    ensures Read(Print(ts) + rest) == Parsed(ts, rest) <==> Printable(ts)
  {
    if Printable(ts) {
      PrintableIsReadBack(ts, rest);
    } else if Read(Print(ts) + rest) == Parsed(ts, rest) {
      ReadBackIsPrintable(ts, rest);
    }
  }

  function PrintAll(packets: seq<seq<Text>>): Text {
    if packets == [] then [] else Print(packets[0]) + PrintAll(packets[1..])
  }

  lemma {:induction false} ReadOneMore(ts: seq<Text>, more: Text)
    requires Printable(ts)
    ensures ReadAll(Print(ts) + more) == ([ts] + ReadAll(more).0, ReadAll(more).1)
  {
    PrintableIsReadBack(ts, more);
  }

  // A stream of printed packets is read back packet by packet and consumed whole.
  lemma {:induction false} StreamRoundTrip(packets: seq<seq<Text>>)
    requires forall i :: 0 <= i < |packets| ==> Printable(packets[i])
    ensures ReadAll(PrintAll(packets)) == (packets, [])
  {
    if packets != [] {
      ReadOneMore(packets[0], PrintAll(packets[1..]));
      StreamRoundTrip(packets[1..]);
      assert packets == [packets[0]] + packets[1..];
    }
  }

  // The bytes of a packet that Read consumed whole.
  lemma WholePacket(input: Text, fields: seq<Text>)
    requires Read(input) == Parsed(fields, [])
    ensures |input| > 2 && fields == Fields(input[2..]) && Header(|input|) == input[..2]
  {
    var size := input[0] as int * 256 + input[1] as int;
    assert |input[size..]| == 0;
    assert input[2..size] == input[2..];
    HeaderLength(size);
  }

  // A payload is the printed form of its fields and an unterminated tail.
  lemma PayloadTail(p: Text) returns (tail: Text)
    ensures p == Body(Fields(p)) + tail && NUL !in tail
  {
    tail := Split(p)[|Split(p)| - 1];
    SplitLosesNothing(p);
    PartsAreNulFree(p);
  }

  lemma SameBytesIffNoTail(body: Text, tail: Text, input: Text)
    requires input == Header(2 + |body| + |tail|) + body + tail && |input| > 2
    requires NUL !in tail && (body == [] || body[|body| - 1] == NUL)
    ensures Header(2 + |body|) + body == input <==> input[|input| - 1] == NUL
  {
    if tail == [] {
      assert input == Header(2 + |body|) + body;
    } else {
      assert input[|input| - 1] == tail[|tail| - 1];
    }
  }

  // Re-printing what Read accepted restores the payload up to its last NUL: the bytes are the same
  // exactly when the payload ended in NUL, and otherwise only the unterminated tail is lost.
  lemma {:induction false} ReprintAfterRead(input: Text, fields: seq<Text>)
    requires Read(input) == Parsed(fields, [])
    ensures Body(fields) <= input[2..] && NUL !in input[2 + |Body(fields)|..]
    ensures |input| > 2 && (Print(fields) == input <==> input[|input| - 1] == NUL)
  {
    WholePacket(input, fields);
    var tail := PayloadTail(input[2..]);
    BodyEndsInNul(fields);
    InParts(input, Body(fields), tail);
    SameBytesIffNoTail(Body(fields), tail, input);
  }

  lemma InParts(input: Text, body: Text, tail: Text)
    requires |input| > 2 && input[2..] == body + tail && input[..2] == Header(|input|)
    ensures input == Header(2 + |body| + |tail|) + body + tail && input[2 + |body|..] == tail
  {
    assert |input| == 2 + |body| + |tail|;
    assert input == input[..2] + input[2..];
    assert input[2 + |body|..] == input[2..][|body|..];
  }

  lemma {:induction false} BodyEndsInNul(ts: seq<Text>)
    ensures Body(ts) == [] || Body(ts)[|Body(ts)| - 1] == NUL
  {
    if ts != [] {
      BodyEndsInNul(ts[1..]);
    }
  }

  // ---------------------------------------------------------------- typed access

  // ReadInt, ReadBool and ReadString on one field text.
  function ReadField(kind: Kind, t: Text): Option<Field> {
    match kind
    case StrKind => Some(Str(t))
    case NumKind => (match Atoi(t) case None => None case Some(n) => Some(Num(n)))
    case FlagKind =>
      if t == Ascii("0") || t == Ascii("false") then Some(Flag(false))
      else if t == Ascii("1") || t == Ascii("true") then Some(Flag(true))
      else None
  }

  // What Go leaves in a target whose field cannot be read.
  function Zero(kind: Kind): Field {
    match kind
    case NumKind => Num(0)
    case StrKind => Str([])
    case FlagKind => Flag(false)
  }

  // Whether Unpack succeeds, what it stores, and the raw data it leaves behind. It stops at the first
  // error, but stores a zero value for the field at fault.
  datatype Unpacked = Unpacked(ok: bool, stored: seq<Field>, left: seq<Text>)

  function UnpackAll(kinds: seq<Kind>, raw: seq<Text>): Unpacked
    decreases |kinds|
  {
    if kinds == [] then Unpacked(true, [], raw)
    else if raw == [] then Unpacked(false, [Zero(kinds[0])], [])
    else
      match ReadField(kinds[0], raw[0])
      case None => Unpacked(false, [Zero(kinds[0])], raw[1..])
      case Some(f) =>
        var r := UnpackAll(kinds[1..], raw[1..]);
        r.(stored := [f] + r.stored)
  }

  // Unpack succeeds exactly if all fields can be read; what it stores are the fields read, and after
  // them, when it fails, one zero value.
  lemma {:induction false} UnpackStores(kinds: seq<Kind>, raw: seq<Text>)
    ensures
      var r := UnpackAll(kinds, raw);
      var n := if r.ok then |r.stored| else |r.stored| - 1;
      && 0 <= n <= |raw| && (r.ok <==> n == |kinds|) && |r.stored| <= |kinds|
      && (forall k :: 0 <= k < n ==> ReadField(kinds[k], raw[k]) == Some(r.stored[k]))
      && (!r.ok ==> r.stored[n] == Zero(kinds[n]) && (n < |raw| ==> ReadField(kinds[n], raw[n]) == None))
    decreases |kinds|
  {
    if kinds != [] && raw != [] && ReadField(kinds[0], raw[0]).Some? {
      var r, f := UnpackAll(kinds[1..], raw[1..]), ReadField(kinds[0], raw[0]).value;
      UnpackStores(kinds[1..], raw[1..]);
      var n := if r.ok then |r.stored| else |r.stored| - 1;
      forall k | 0 <= k < n + 1 ensures ReadField(kinds[k], raw[k]) == Some(([f] + r.stored)[k]) {
        if k > 0 {
          assert ReadField(kinds[1..][k - 1], raw[1..][k - 1]) == Some(r.stored[k - 1]);
        }
      }
    }
  }

  ghost predicate Sendable(f: Field) {
    f.Num? ==> MIN_INT <= f.n <= MAX_INT
  }

  lemma ReadFieldUndoesText(f: Field)
    requires Sendable(f)
    ensures ReadField(FieldKind(f), FieldText(f)) == Some(f)
  {
    match f
    case Num(n) => AtoiUndoesItoa(n);
    case Str(_) =>
    case Flag(b) =>
      assert |Ascii("0")| == |Ascii("1")| == 1;
      assert |Ascii("true")| == 4 && |Ascii("false")| == 5;
  }

  function Kinds(fs: seq<Field>): seq<Kind> {
    seq(|fs|, i requires 0 <= i < |fs| => FieldKind(fs[i]))
  }

  // Unpacking at matching types recovers every int, bool and string, and leaves the rest.
  lemma {:induction false} UnpackUndoesTexts(fs: seq<Field>, more: seq<Text>)
    requires forall i :: 0 <= i < |fs| ==> Sendable(fs[i])
    ensures UnpackAll(Kinds(fs), Texts(fs) + more) == Unpacked(true, fs, more)
  {
    if fs == [] {
      assert Texts(fs) + more == more;
    } else {
      ReadFieldUndoesText(fs[0]);
      UnpackUndoesTexts(fs[1..], more);
      assert Kinds(fs)[1..] == Kinds(fs[1..]);
      assert (Texts(fs) + more)[1..] == Texts(fs[1..]) + more;
      assert fs == [fs[0]] + fs[1..];
    }
  }

  // End to end: values handed to New come out of Read and Unpack unchanged.
  lemma ValuesSurviveTheWire(fs: seq<Field>, rest: Text)
    requires fs != [] && 2 + |Body(Texts(fs))| <= 0xffff
    requires forall i :: 0 <= i < |fs| ==> Sendable(fs[i]) && (fs[i].Str? ==> NUL !in fs[i].t)
    ensures
      var r := Read(Print(Texts(fs)) + rest);
      r.Parsed? && r.rest == rest && UnpackAll(Kinds(fs), r.fields) == Unpacked(true, fs, [])
  {
    forall i | 0 <= i < |fs| ensures NUL !in Texts(fs)[i] {
      match fs[i]
      case Num(n) => NumeralHasNoNul(n);
      case Str(_) =>
      case Flag(_) =>
    }
    ReadUndoesPrint(Texts(fs), rest);
    UnpackUndoesTexts(fs, []);
    assert Texts(fs) + [] == Texts(fs);
  }

  // ---------------------------------------------------------------- in bytes

  // A packet starts with its length, the high byte first, and every field ends in a zero byte.
  lemma {:induction false} PacketInBytes(ts: seq<Text>, k: nat)
    requires 2 + |Body(ts)| <= 0xffff && k < |ts|
    ensures
      var p, before := Print(ts), |Body(ts[..k])|;
      && p[0] as int * 256 + p[1] as int == |p|
      && 2 + before + |ts[k]| < |p| && p[2 + before..][..|ts[k]|] == ts[k] && p[2 + before + |ts[k]|] == 0
  {
    var p := Print(ts);
    FieldInBody(ts, k);
    assert p[2..] == Body(ts);
    var rest := p[2 + |Body(ts[..k])|..];
    assert rest == p[2..][|Body(ts[..k])|..];
  }

  lemma {:induction false} FieldInBody(ts: seq<Text>, k: nat)
    requires k < |ts|
    ensures
      var before := |Body(ts[..k])|;
      && before + |ts[k]| < |Body(ts)| && Body(ts)[before..][..|ts[k]|] == ts[k]
      && Body(ts)[before..][|ts[k]|] == 0
  {
    if k == 0 {
      assert ts[..0] == [];
    } else {
      FieldInBody(ts[1..], k - 1);
      assert ts[..k][1..] == ts[1..][..k - 1];
      var front := ts[0] + [NUL];
      assert Body(ts) == front + Body(ts[1..]) && Body(ts[..k]) == front + Body(ts[1..][..k - 1]);
      assert Body(ts)[|Body(ts[..k])|..] == Body(ts[1..])[|Body(ts[1..][..k - 1])|..];
    }
  }

  // Truth values are printed as words, and read as words or digits.
  lemma FlagsInBytes(t: Text)
    ensures FieldText(Flag(true)) == [116, 114, 117, 101] && FieldText(Flag(false)) == [102, 97, 108, 115, 101]
    ensures ReadField(FlagKind, t) == Some(Flag(true)) <==> t == [49] || t == [116, 114, 117, 101]
    ensures ReadField(FlagKind, t) == Some(Flag(false)) <==> t == [48] || t == [102, 97, 108, 115, 101]
  {
    assert Ascii("true") == [116, 114, 117, 101] && Ascii("false") == [102, 97, 108, 115, 101];
    assert Ascii("1") == [49] && Ascii("0") == [48];
  }

  // ---------------------------------------------------------------- the code

  lemma {:induction false} BodyOfAppend(ts: seq<Text>, t: Text)
    ensures Body(ts + [t]) == Body(ts) + t + [NUL]
  {
    if ts != [] {
      BodyOfAppend(ts[1..], t);
      assert (ts + [t])[1..] == ts[1..] + [t];
    }
  }

  lemma BodyUpTo(ts: seq<Text>, k: nat)
    requires k < |ts|
    ensures Body(ts[..k + 1]) == Body(ts[..k]) + ts[k] + [NUL]
  {
    BodyOfAppend(ts[..k], ts[k]);
    assert ts[..k + 1] == ts[..k] + [ts[k]];
  }

  lemma {:induction false} BodyGrows(ts: seq<Text>, k: nat)
    requires k <= |ts|
    ensures |Body(ts[..k])| <= |Body(ts)|
    decreases |ts| - k
  {
    if k < |ts| {
      BodyGrows(ts, k + 1);
      BodyUpTo(ts, k);
    } else {
      assert ts[..k] == ts;
    }
  }

  // copy(buf[at:at+len(t)], t), and the NUL after it
  method PutField(buf: array<byte>, at: nat, t: Text)
    requires at + |t| < buf.Length
    modifies buf
    ensures buf[..at + |t| + 1] == old(buf[..at]) + t + [NUL]
  {
    forall j | 0 <= j < |t| { buf[at + j] := t[j]; }
    buf[at + |t|] := NUL;
  }

  method SizeOf(fs: seq<Field>) returns (nbytes: nat)
    ensures nbytes == |Print(Texts(fs))|
  {
    ghost var ts := Texts(fs);
    nbytes := 2;
    for k := 0 to |fs|
      invariant nbytes == 2 + |Body(ts[..k])|
    {
      nbytes := nbytes + |FieldText(fs[k])| + 1;
      BodyUpTo(ts, k);
    }
    assert ts[..|fs|] == ts;
  }

  // The first bytes of the buffer once k fields are in place.
  ghost function Filled(ts: seq<Text>, nbytes: nat, k: nat): Text
    requires k <= |ts|
  {
    Header(nbytes) + Body(ts[..k])
  }

  lemma FillOne(ts: seq<Text>, nbytes: nat, k: nat)
    requires k < |ts|
    ensures Filled(ts, nbytes, k + 1) == Filled(ts, nbytes, k) + ts[k] + [NUL]
    ensures |Filled(ts, nbytes, k + 1)| <= |Print(ts)|
  {
    BodyUpTo(ts, k);
    BodyGrows(ts, k + 1);
  }

  // packet.New: sizes the buffer in one pass and fills it in place in a second.
  method New(fs: seq<Field>) returns (buf: array<byte>)
    ensures buf[..] == Print(Texts(fs))
  {
    ghost var ts := Texts(fs);
    var nbytes := SizeOf(fs);
    buf := new byte[nbytes];
    var length := Header(nbytes);
    buf[0], buf[1] := length[0], length[1];
    var i := 2;
    assert buf[..i] == Filled(ts, nbytes, 0);
    for k := 0 to |fs|
      invariant 2 <= i <= nbytes
      invariant buf[..i] == Filled(ts, nbytes, k)
    {
      var t := FieldText(fs[k]);
      FillOne(ts, nbytes, k);
      PutField(buf, i, t);
      i := i + |t| + 1;
    }
    assert ts[..|fs|] == ts && Filled(ts, nbytes, |fs|) == Print(ts);
    assert |buf[..i]| == nbytes;
    assert buf[..] == buf[..i];
  }

  // The outcome of an Unpack that has already stored `got`.
  function After(got: seq<Field>, r: Unpacked): Unpacked {
    r.(stored := got + r.stored)
  }

  lemma AfterNothing(r: Unpacked)
    ensures After([], r) == r
  {
    assert [] + r.stored == r.stored;
  }

  lemma AfterOneMore(got: seq<Field>, f: Field, r: Unpacked)
    ensures After(got + [f], r) == After(got, After([f], r))
  {
    assert got + [f] + r.stored == got + ([f] + r.stored);
  }

  // A received packet; its readers consume rawData from the front.
  class Packet {
    var rawData: seq<Text>

    constructor (fields: seq<Text>)
      ensures rawData == fields
    {
      rawData := fields;
    }

    method ReadString() returns (t: Option<Text>)
      modifies this
      ensures old(rawData) == [] ==> t == None && rawData == []
      ensures old(rawData) != [] ==> t == Some(old(rawData)[0]) && rawData == old(rawData)[1..]
    {
      if |rawData| == 0 {
        return None;
      }
      t := Some(rawData[0]);
      rawData := rawData[1..];
    }

    // Stores one value per kind and stops at the first error.
    method Unpack(kinds: seq<Kind>) returns (ok: bool, stored: seq<Field>)
      modifies this
      ensures Unpacked(ok, stored, rawData) == UnpackAll(kinds, old(rawData))
    {
      stored := [];
      assert kinds[0..] == kinds;
      AfterNothing(UnpackAll(kinds, rawData));
      for k := 0 to |kinds|
        invariant UnpackAll(kinds, old(rawData)) == After(stored, UnpackAll(kinds[k..], rawData))
      {
        assert kinds[k..][1..] == kinds[k + 1..];
        var t := ReadString();
        var f := if t == None then None else ReadField(kinds[k], t.value);
        if f == None {
          ok, stored := false, stored + [Zero(kinds[k])];
          return;
        }
        AfterOneMore(stored, f.value, UnpackAll(kinds[k + 1..], rawData));
        stored := stored + [f.value];
      }
      assert kinds[|kinds|..] == [] && stored + [] == stored;
      ok := true;
    }
  }
}
