/** The TLS ClientHello message as the HTTPS virtual-host muxer reads it, given twice:
    as a recursive reading of the nested length fields (`ReadHello`), and as a typed message
    with a serializer (`Hello`, `Serialize`). `AcceptedExactly` joins the two.
    Field layout: sections 7.4.1.2 and 7.4.1.4 of RFC 5246, section 3 of RFC 6066. */
module ClientHello {

  newtype byte = b: int | 0 <= b < 256
  type bytes = seq<byte>

  const TYPE_CLIENT_HELLO: byte := 1
  const SERVER_NAME: nat := 0
  const RENEGOTIATION_INFO: nat := 0xff01
  const HOST_NAME: byte := 0

  datatype HelloError =
    | ReadFailed | NotClientHello | SessionLong | AfterSessionShort | CiphersShort | CiphersLong
    | CompressionLong | NoExtensions | ExtensionsShort | ExtensionsMismatch
    | ExtensionHeaderShort | ExtensionLong | BadRenegotiation
    | NameListShort | NameListMismatch | NameHeaderShort | NameLong | NoServerName

  datatype Outcome = Host(host: bytes) | Failed(error: HelloError)

  // ---------------------------------------------------------------- numbers

  function U16(hi: byte, lo: byte): (n: nat)
    ensures n < 0x10000
  {
    256 * (hi as int) + lo as int
  }

  function Enc16(n: nat): (e: bytes)
    requires n < 0x10000
    ensures |e| == 2
  {
    [(n / 256) as byte, (n % 256) as byte]
  }

  lemma Enc16Read(n: nat)
    requires n < 0x10000
    ensures U16(Enc16(n)[0], Enc16(n)[1]) == n
  {
  }

  lemma Enc16Inverse(hi: byte, lo: byte)
    ensures Enc16(U16(hi, lo)) == [hi, lo]
  {
  }

  // ---------------------------------------------------------------- white space

  /** The UTF-8 encodings of the white-space characters. */
  predicate IsSpace(e: bytes) {
    || (|e| == 1 && (9 <= e[0] <= 13 || e[0] == 0x20))
    || (|e| == 2 && e[0] == 0xc2 && (e[1] == 0x85 || e[1] == 0xa0))
    || (|e| == 3 && (
          || (e[0] == 0xe1 && e[1] == 0x9a && e[2] == 0x80)
          || (e[0] == 0xe2 && e[1] == 0x80
              && (0x80 <= e[2] <= 0x8a || e[2] == 0xa8 || e[2] == 0xa9 || e[2] == 0xaf))
          || (e[0] == 0xe2 && e[1] == 0x81 && e[2] == 0x9f)
          || (e[0] == 0xe3 && e[1] == 0x80 && e[2] == 0x80)))
  }

  /** The characters that count as white space. */
  predicate WhiteSpace(cp: nat) {
    || 9 <= cp <= 13 || cp == 0x20 || cp == 0x85 || cp == 0xa0 || cp == 0x1680 || 0x2000 <= cp <= 0x200a
    || cp == 0x2028 || cp == 0x2029 || cp == 0x202f || cp == 0x205f || cp == 0x3000
  }

  /** The UTF-8 encoding of a character of the basic plane. */
  function Utf8(cp: nat): bytes
    requires cp < 0x10000
  {
    if cp < 0x80 then [cp as byte]
    else if cp < 0x800 then [(0xc0 + cp / 64) as byte, (0x80 + cp % 64) as byte]
    else [(0xe0 + cp / 4096) as byte, (0x80 + cp / 64 % 64) as byte, (0x80 + cp % 64) as byte]
  }

  predicate Encodes(e: bytes, cp: nat) {
    WhiteSpace(cp) && e == Utf8(cp)
  }

  /** The character that `e` would encode. */
  function Decoded(e: bytes): int {
    if |e| == 1 then e[0] as int
    else if |e| == 2 then (e[0] as int - 0xc0) * 64 + (e[1] as int - 0x80)
    else if |e| == 3 then (e[0] as int - 0xe0) * 4096 + (e[1] as int - 0x80) * 64 + (e[2] as int - 0x80)
    else -1
  }

  lemma SpaceDecoded(e: bytes)
    requires IsSpace(e)
    ensures Decoded(e) >= 0 && Encodes(e, Decoded(e))
  {
    var cp := Decoded(e);
    if |e| == 3 {
      assert cp / 4096 == e[0] as int - 0xe0;
      assert cp / 64 % 64 == e[1] as int - 0x80;
      assert cp % 64 == e[2] as int - 0x80;
    }
  }

  lemma SpaceEncoded(cp: nat)
    requires WhiteSpace(cp)
    ensures IsSpace(Utf8(cp))
  {
  }

  /** White space is recognized by its encoding, and nothing else is. */
  lemma IsSpaceExactly(e: bytes)
    ensures IsSpace(e) <==> exists cp :: Encodes(e, cp)
  {
    if IsSpace(e) { SpaceDecoded(e); }
    if exists cp :: Encodes(e, cp) {
      var cp :| Encodes(e, cp);
      SpaceEncoded(cp);
    }
  }

  /** Length of the character at the start (end) of `s` that `f` holds of, 0 if there is none. */
  function Leading(f: bytes -> bool, s: bytes): (n: nat)
    ensures n <= |s| && (n > 0 ==> f(s[..n]))
  {
    if |s| >= 1 && f(s[..1]) then 1
    else if |s| >= 2 && f(s[..2]) then 2
    else if |s| >= 3 && f(s[..3]) then 3
    else 0
  }

  function Trailing(f: bytes -> bool, s: bytes): (n: nat)
    ensures n <= |s| && (n > 0 ==> f(s[|s| - n..]))
  {
    if |s| >= 1 && f(s[|s| - 1..]) then 1
    else if |s| >= 2 && f(s[|s| - 2..]) then 2
    else if |s| >= 3 && f(s[|s| - 3..]) then 3
    else 0
  }

  function TrimLeft(f: bytes -> bool, s: bytes): bytes
    decreases |s|
  {
    if Leading(f, s) == 0 then s else TrimLeft(f, s[Leading(f, s)..])
  }

  function TrimRight(f: bytes -> bool, s: bytes): bytes
    decreases |s|
  {
    if Trailing(f, s) == 0 then s else TrimRight(f, s[..|s| - Trailing(f, s)])
  }

  function TrimSpace(s: bytes): bytes {
    TrimRight(IsSpace, TrimLeft(IsSpace, s))
  }

  /** The characters in `cs`, one after the other. */
  function Concat(cs: seq<bytes>): bytes {
    if cs == [] then [] else cs[0] + Concat(cs[1..])
  }

  // ---------------------------------------------------------------- recursive reading

  datatype NameScan = FoundName(name: bytes) | NoHostName | BadNames(error: HelloError)

  function ReadNames(d: bytes): NameScan
    decreases |d|
  {
    if |d| == 0 then NoHostName
    else if |d| < 3 then BadNames(NameHeaderShort)
    else
      var n := U16(d[1], d[2]);
      if |d| < 3 + n then BadNames(NameLong)
      else if d[0] == HOST_NAME then FoundName(d[3..3 + n])
      else ReadNames(d[3 + n..])
  }

  function ReadNameList(body: bytes): NameScan {
    if |body| < 2 then BadNames(NameListShort)
    else if |body| - 2 != U16(body[0], body[1]) then BadNames(NameListMismatch)
    else ReadNames(body[2..])
  }

  function ReadExtensions(data: bytes): Outcome
    decreases |data|
  {
    if |data| == 0 then Failed(NoServerName)
    else if |data| < 4 then Failed(ExtensionHeaderShort)
    else
      var id, n := U16(data[0], data[1]), U16(data[2], data[3]);
      if |data| < 4 + n then Failed(ExtensionLong)
      else if id == RENEGOTIATION_INFO && data[4..4 + n] != [0] then Failed(BadRenegotiation)
      else if id == SERVER_NAME then
        match ReadNameList(data[4..4 + n])
        case BadNames(e) => Failed(e)
        case FoundName(name) => Host(TrimSpace(name))
        case NoHostName => ReadExtensions(data[4 + n..])
      else ReadExtensions(data[4 + n..])
  }

  function ReadCompression(data: bytes): Outcome {
    if |data| < 1 then Failed(CiphersLong)
    else
      var n := data[0] as int;
      if |data| < 1 + n then Failed(CompressionLong)
      else if |data| == 1 + n then Failed(NoExtensions)
      else if |data| < 3 + n then Failed(ExtensionsShort)
      else if U16(data[1 + n], data[2 + n]) != |data| - 3 - n then Failed(ExtensionsMismatch)
      else ReadExtensions(data[3 + n..])
  }

  function ReadCiphers(data: bytes): Outcome {
    if |data| < 2 then Failed(AfterSessionShort)
    else
      var n := U16(data[0], data[1]);
      if n % 2 == 1 || |data| < 2 + n then Failed(CiphersShort)
      else ReadCompression(data[2 + n..])
  }

  function ReadHello(data: bytes): Outcome
    requires |data| >= 47
  {
    if data[5] != TYPE_CLIENT_HELLO then Failed(NotClientHello)
    else
      var n := data[43] as int;
      if n > 32 || |data| < 44 + n then Failed(SessionLong)
      else ReadCiphers(data[44 + n..])
  }

  // ---------------------------------------------------------------- typed message

  /** A field preceded by its length in two bytes, and in one. */
  function Field16(b: bytes): bytes
    requires |b| < 0x10000
  {
    Enc16(|b|) + b
  }

  function Field8(b: bytes): bytes
    requires |b| < 256
  {
    [|b| as byte] + b
  }

  datatype ServerName = ServerName(nameType: byte, name: bytes)

  function SerializeName(n: ServerName): bytes
    requires |n.name| < 0x10000
  {
    [n.nameType] + Field16(n.name)
  }

  /** Names that are not host names. */
  predicate ValidNames(names: seq<ServerName>) {
    forall i | 0 <= i < |names| :: names[i].nameType != HOST_NAME && |names[i].name| < 0x10000
  }

  function SerializeNames(names: seq<ServerName>): bytes
    requires ValidNames(names)
  {
    if names == [] then [] else SerializeName(names[0]) + SerializeNames(names[1..])
  }

  /** An extension that the muxer reads past: an empty renegotiation_info, a server_name
      extension that lists no host_name, or any other extension whatever its body. */
  datatype Skipped =
    | Renegotiation
    | NamesOnly(names: seq<ServerName>)
    | Other(id: nat, body: bytes)

  predicate ValidSkipped(e: Skipped) {
    match e
    case Renegotiation => true
    case NamesOnly(names) => ValidNames(names) && |SerializeNames(names)| < 0xfffe
    case Other(id, body) =>
      id < 0x10000 && id != SERVER_NAME && id != RENEGOTIATION_INFO && |body| < 0x10000
  }

  function SerializeExtension(id: nat, body: bytes): bytes
    requires id < 0x10000 && |body| < 0x10000
  {
    Enc16(id) + Field16(body)
  }

  function SerializeSkipped(e: Skipped): bytes
    requires ValidSkipped(e)
  {
    match e
    case Renegotiation => SerializeExtension(RENEGOTIATION_INFO, [0])
    case NamesOnly(names) => SerializeExtension(SERVER_NAME, Field16(SerializeNames(names)))
    case Other(id, body) => SerializeExtension(id, body)
  }

  predicate AllValidSkipped(es: seq<Skipped>) {
    forall i | 0 <= i < |es| :: ValidSkipped(es[i])
  }

  function SerializeAllSkipped(es: seq<Skipped>): bytes
    requires AllValidSkipped(es)
  {
    if es == [] then [] else SerializeSkipped(es[0]) + SerializeAllSkipped(es[1..])
  }

  /** The part of a ClientHello that names the host: `skipped` extensions, then a server_name
      extension holding `otherNames` and the host name. `laterNames` and `laterExtensions`
      follow the host name and may hold anything. */
  datatype Naming = Naming(
    skipped: seq<Skipped>, otherNames: seq<ServerName>, hostName: bytes,
    laterNames: bytes, laterExtensions: bytes)

  predicate ValidNaming(n: Naming) {
    && AllValidSkipped(n.skipped) && ValidNames(n.otherNames) && |n.hostName| < 0x10000
    && |NameList(n)| < 0xfffe
  }

  function NameList(n: Naming): bytes
    requires ValidNames(n.otherNames) && |n.hostName| < 0x10000
  {
    SerializeNames(n.otherNames) + (SerializeName(ServerName(HOST_NAME, n.hostName)) + n.laterNames)
  }

  function Extensions(n: Naming): bytes
    requires ValidNaming(n)
  {
    SerializeAllSkipped(n.skipped)
    + (SerializeExtension(SERVER_NAME, Field16(NameList(n))) + n.laterExtensions)
  }

  /** A ClientHello that carries a host name. `head` is everything before the session id:
      the record header, the handshake header, the version and the random bytes. */
  datatype Hello = Hello(
    head: bytes, session: bytes, ciphers: bytes, compression: bytes, naming: Naming)

  predicate ValidHello(h: Hello) {
    && |h.head| == 43 && h.head[5] == TYPE_CLIENT_HELLO
    && |h.session| <= 32
    && |h.ciphers| < 0x10000 && |h.ciphers| % 2 == 0
    && |h.compression| < 256
    && ValidNaming(h.naming) && |Extensions(h.naming)| < 0x10000
  }

  function Serialize(h: Hello): bytes
    requires ValidHello(h)
  {
    h.head + (Field8(h.session)
              + (Field16(h.ciphers) + (Field8(h.compression) + Field16(Extensions(h.naming)))))
  }

  // ---------------------------------------------------------------- reading what was written

  lemma Field16Read(b: bytes, rest: bytes)
    requires |b| < 0x10000
    ensures var d := Field16(b) + rest;
            && |d| == 2 + |b| + |rest| && U16(d[0], d[1]) == |b|
            && d[2..2 + |b|] == b && d[2 + |b|..] == rest
  {
    var d := Field16(b) + rest;
    Enc16Read(|b|);
    assert d[0] == Enc16(|b|)[0] && d[1] == Enc16(|b|)[1];
  }

  lemma Field8Read(b: bytes, rest: bytes)
    requires |b| < 256
    ensures var d := Field8(b) + rest;
            |d| == 1 + |b| + |rest| && d[0] as int == |b| && d[1 + |b|..] == rest
  {
  }

  lemma NameRead(n: ServerName, rest: bytes)
    requires |n.name| < 0x10000
    ensures ReadNames(SerializeName(n) + rest)
         == if n.nameType == HOST_NAME then FoundName(n.name) else ReadNames(rest)
  {
    var d := SerializeName(n) + rest;
    var f := Field16(n.name) + rest;
    Field16Read(n.name, rest);
    assert d == [n.nameType] + f;
    assert d[1] == f[0] && d[2] == f[1];
    assert d[3..3 + |n.name|] == f[2..2 + |n.name|] && d[3 + |n.name|..] == f[2 + |n.name|..];
  }

  lemma {:induction false} NamesReadPast(names: seq<ServerName>, rest: bytes)
    requires ValidNames(names)
    ensures ReadNames(SerializeNames(names) + rest) == ReadNames(rest)
  {
    if names == [] {
      assert SerializeNames(names) + rest == rest;
    } else {
      var tail := SerializeNames(names[1..]) + rest;
      assert SerializeNames(names) + rest == SerializeName(names[0]) + tail;
      NameRead(names[0], tail);
      NamesReadPast(names[1..], rest);
    }
  }

  lemma NameListRead(list: bytes)
    requires |list| < 0xfffe
    ensures ReadNameList(Field16(list)) == ReadNames(list)
  {
    Field16Read(list, []);
    assert Field16(list) + [] == Field16(list);
  }

  lemma ExtensionSplit(id: nat, body: bytes, rest: bytes)
    requires id < 0x10000 && |body| < 0x10000
    ensures var d := SerializeExtension(id, body) + rest;
            && |d| == 4 + |body| + |rest| && U16(d[0], d[1]) == id && U16(d[2], d[3]) == |body|
            && d[4..4 + |body|] == body && d[4 + |body|..] == rest
  {
    var d := SerializeExtension(id, body) + rest;
    var f := Field16(body) + rest;
    Field16Read(body, rest);
    Enc16Read(id);
    assert d == Enc16(id) + f;
    assert d[..2] == Enc16(id) && d[2..] == f;
    assert d[0] == d[..2][0] && d[1] == d[..2][1] && d[2] == d[2..][0] && d[3] == d[2..][1];
    assert d[4..4 + |body|] == d[2..][2..2 + |body|];
    assert d[4 + |body|..] == d[2..][2 + |body|..];
  }

  /** One step of the reading, past an extension with this id and body. */
  lemma ExtensionStep(id: nat, body: bytes, rest: bytes)
    requires id < 0x10000 && |body| < 0x10000
    ensures ReadExtensions(SerializeExtension(id, body) + rest)
         == if id == RENEGOTIATION_INFO && body != [0] then Failed(BadRenegotiation)
            else if id == SERVER_NAME then
              match ReadNameList(body)
              case BadNames(e) => Failed(e)
              case FoundName(name) => Host(TrimSpace(name))
              case NoHostName => ReadExtensions(rest)
            else ReadExtensions(rest)
  {
    ExtensionSplit(id, body, rest);
  }

  lemma SkippedReadPast(e: Skipped, rest: bytes)
    requires ValidSkipped(e)
    ensures ReadExtensions(SerializeSkipped(e) + rest) == ReadExtensions(rest)
  {
    match e
    case Renegotiation =>
      ExtensionStep(RENEGOTIATION_INFO, [0], rest);
    case NamesOnly(names) =>
      var list := SerializeNames(names);
      ExtensionStep(SERVER_NAME, Field16(list), rest);
      NameListRead(list);
      NamesReadPast(names, []);
      assert list + [] == list;
    case Other(id, body) =>
      ExtensionStep(id, body, rest);
  }

  lemma {:induction false} AllSkippedReadPast(es: seq<Skipped>, rest: bytes)
    requires AllValidSkipped(es)
    ensures ReadExtensions(SerializeAllSkipped(es) + rest) == ReadExtensions(rest)
  {
    if es == [] {
      assert SerializeAllSkipped(es) + rest == rest;
    } else {
      var tail := SerializeAllSkipped(es[1..]) + rest;
      assert SerializeAllSkipped(es) + rest == SerializeSkipped(es[0]) + tail;
      SkippedReadPast(es[0], tail);
      AllSkippedReadPast(es[1..], rest);
    }
  }

  lemma ExtensionsRead(n: Naming)
    requires ValidNaming(n)
    ensures ReadExtensions(Extensions(n)) == Host(TrimSpace(n.hostName))
  {
    var list := NameList(n);
    AllSkippedReadPast(n.skipped, SerializeExtension(SERVER_NAME, Field16(list)) + n.laterExtensions);
    ExtensionStep(SERVER_NAME, Field16(list), n.laterExtensions);
    NameListRead(list);
    NamesReadPast(n.otherNames, SerializeName(ServerName(HOST_NAME, n.hostName)) + n.laterNames);
    NameRead(ServerName(HOST_NAME, n.hostName), n.laterNames);
  }

  lemma CompressionRead(c: bytes, x: bytes)
    requires |c| < 256 && 0 < |x| < 0x10000
    ensures ReadCompression(Field8(c) + Field16(x)) == ReadExtensions(x)
  {
    var d := Field8(c) + Field16(x);
    Field8Read(c, Field16(x));
    Field16Read(x, []);
    assert Field16(x) + [] == Field16(x);
    assert d[1 + |c|] == Field16(x)[0] && d[2 + |c|] == Field16(x)[1];
    assert d[3 + |c|..] == d[1 + |c|..][2..];
  }

  lemma CiphersRead(c: bytes, rest: bytes)
    requires |c| < 0x10000 && |c| % 2 == 0
    ensures ReadCiphers(Field16(c) + rest) == ReadCompression(rest)
  {
    Field16Read(c, rest);
  }

  lemma SessionRead(head: bytes, session: bytes, rest: bytes)
    requires |head| == 43 && head[5] == TYPE_CLIENT_HELLO && |session| <= 32 && |rest| >= 3
    ensures ReadHello(head + (Field8(session) + rest)) == ReadCiphers(rest)
  {
    var data := head + (Field8(session) + rest);
    Field8Read(session, rest);
    assert data[5] == head[5];
    assert data[43] == (Field8(session) + rest)[0];
    assert data[44 + |session|..] == (Field8(session) + rest)[1 + |session|..];
  }

  /** Round trip: whatever surrounds it, the first host name comes back, trimmed. */
  lemma ReadSerialized(h: Hello)
    requires ValidHello(h)
    ensures |Serialize(h)| >= 47 && ReadHello(Serialize(h)) == Host(TrimSpace(h.naming.hostName))
  {
    var x := Extensions(h.naming);
    var d2 := Field8(h.compression) + Field16(x);
    var d1 := Field16(h.ciphers) + d2;
    ExtensionsRead(h.naming);
    CompressionRead(h.compression, x);
    CiphersRead(h.ciphers, d2);
    SessionRead(h.head, h.session, d1);
  }

  /** A message as a client sends it: no session, one cipher suite, no compression, the name a.io. */
  const SAMPLE_HEAD: bytes := [
    0x16, 0x03, 0x01, 0x00, 0x3c, 0x01, 0x00, 0x00, 0x38, 0x03, 0x03,
    0, 1, 2, 3, 4, 5, 6, 7, 8, 9, 10, 11, 12, 13, 14, 15,
    16, 17, 18, 19, 20, 21, 22, 23, 24, 25, 26, 27, 28, 29, 30, 31]
  const SAMPLE_NAMES: bytes := [0x00, 0x00, 0x04, 0x61, 0x2e, 0x69, 0x6f]
  const SAMPLE_EXTENSIONS: bytes := [0x00, 0x00, 0x00, 0x09, 0x00, 0x07] + SAMPLE_NAMES
  const SAMPLE: bytes :=
    SAMPLE_HEAD + ([0x00] + ([0x00, 0x02, 0x13, 0x01] + ([0x01, 0x00] + ([0x00, 0x0d] + SAMPLE_EXTENSIONS))))

  lemma SampleNames()
    ensures ReadNames(SAMPLE_NAMES) == FoundName([0x61, 0x2e, 0x69, 0x6f])
  {
    var host: bytes := [0x61, 0x2e, 0x69, 0x6f];
    NameRead(ServerName(HOST_NAME, host), []);
    assert SerializeName(ServerName(HOST_NAME, host)) + [] == SAMPLE_NAMES;
  }

  lemma SampleWritten()
    ensures |SAMPLE_NAMES| == 7 && |SAMPLE_EXTENSIONS| == 13
    ensures SerializeExtension(SERVER_NAME, Field16(SAMPLE_NAMES)) + [] == SAMPLE_EXTENSIONS
  {
    assert Enc16(7) == [0x00, 0x07] && Enc16(9) == [0x00, 0x09] && Enc16(0) == [0x00, 0x00];
  }

  lemma SampleTrimmed()
    ensures TrimSpace([0x61, 0x2e, 0x69, 0x6f]) == [0x61, 0x2e, 0x69, 0x6f]
  {
    var host: bytes := [0x61, 0x2e, 0x69, 0x6f];
    assert Leading(IsSpace, host) == 0;
    assert Trailing(IsSpace, host) == 0;
  }

  lemma SampleExtensions()
    ensures ReadExtensions(SAMPLE_EXTENSIONS) == Host(TrimSpace([0x61, 0x2e, 0x69, 0x6f]))
  {
    SampleWritten();
    SampleNames();
    NameListRead(SAMPLE_NAMES);
    ExtensionStep(SERVER_NAME, Field16(SAMPLE_NAMES), []);
  }

  lemma SampleFields()
    ensures Field8([0x00]) + Field16(SAMPLE_EXTENSIONS) == [0x01, 0x00] + ([0x00, 0x0d] + SAMPLE_EXTENSIONS)
    ensures Field16([0x13, 0x01]) == [0x00, 0x02, 0x13, 0x01]
    ensures Field8([]) == [0x00] && |SAMPLE_HEAD| == 43 && SAMPLE_HEAD[5] == TYPE_CLIENT_HELLO
  {
    SampleWritten();
    assert Enc16(13) == [0x00, 0x0d] && Enc16(2) == [0x00, 0x02];
  }

  /** The sample is read. */
  lemma SampleRead()
    ensures |SAMPLE| == 65 && ReadHello(SAMPLE) == Host([0x61, 0x2e, 0x69, 0x6f])
  {
    var fields := Field8([0x00]) + Field16(SAMPLE_EXTENSIONS);
    SampleWritten();
    SampleFields();
    SessionRead(SAMPLE_HEAD, [], Field16([0x13, 0x01]) + fields);
    CiphersRead([0x13, 0x01], fields);
    CompressionRead([0x00], SAMPLE_EXTENSIONS);
    SampleExtensions();
    SampleTrimmed();
  }

  /** A renegotiation_info extension that is not empty is refused. */
  lemma SampleRenegotiation()
    ensures ReadExtensions([0xff, 0x01, 0x00, 0x01, 0x01]) == Failed(BadRenegotiation)
  {
    ExtensionStep(RENEGOTIATION_INFO, [0x01], []);
    assert SerializeExtension(RENEGOTIATION_INFO, [0x01]) + [] == [0xff, 0x01, 0x00, 0x01, 0x01];
  }

  // ---------------------------------------------------------------- everything read was written

  lemma Field16Written(d: bytes)
    requires |d| >= 2 && |d| >= 2 + U16(d[0], d[1])
    ensures var n := U16(d[0], d[1]); d == Field16(d[2..2 + n]) + d[2 + n..]
  {
    Enc16Inverse(d[0], d[1]);
  }

  lemma NameWritten(d: bytes)
    requires |d| >= 3 && |d| >= 3 + U16(d[1], d[2])
    ensures var n := U16(d[1], d[2]);
            d == SerializeName(ServerName(d[0], d[3..3 + n])) + d[3 + n..]
  {
    var n := U16(d[1], d[2]);
    Field16Written(d[1..]);
    assert d[1..][2..2 + n] == d[3..3 + n] && d[1..][2 + n..] == d[3 + n..];
    assert d == [d[0]] + d[1..];
  }

  lemma NamesExtend(n: ServerName, tail: seq<ServerName>) returns (names: seq<ServerName>)
    requires n.nameType != HOST_NAME && |n.name| < 0x10000 && ValidNames(tail)
    ensures ValidNames(names) && SerializeNames(names) == SerializeName(n) + SerializeNames(tail)
  {
    names := [n] + tail;
    assert names[1..] == tail;
  }

  /** What `ReadNames` accepted is a list of other names, then the host name if it found one. */
  lemma {:induction false} NamesWritten(d: bytes) returns (names: seq<ServerName>, rest: bytes)
    requires !ReadNames(d).BadNames?
    ensures ValidNames(names) && d == SerializeNames(names) + rest
    ensures match ReadNames(d)
            case NoHostName => rest == []
            case FoundName(host) =>
              |host| < 0x10000
              && var s := SerializeName(ServerName(HOST_NAME, host));
                 s <= rest
    decreases |d|
  {
    if d == [] {
      names, rest := [], [];
    } else {
      var n := U16(d[1], d[2]);
      NameWritten(d);
      if d[0] == HOST_NAME {
        names, rest := [], d;
      } else {
        var first, later := ServerName(d[0], d[3..3 + n]), d[3 + n..];
        var tail;
        tail, rest := NamesWritten(later);
        names := NamesExtend(first, tail);
        assert ReadNames(d) == ReadNames(later);
        AppendAssociative(SerializeName(first), SerializeNames(tail), rest);
      }
    }
  }

  lemma NameListWritten(body: bytes)
    requires !ReadNameList(body).BadNames?
    ensures |body| >= 2 && ReadNameList(body) == ReadNames(body[2..])
    ensures |body| - 2 < 0x10000 && body == Field16(body[2..])
  {
    Field16Written(body);
  }

  lemma ExtensionWritten(data: bytes)
    requires |data| >= 4 && |data| >= 4 + U16(data[2], data[3])
    ensures var n := U16(data[2], data[3]);
            data == SerializeExtension(U16(data[0], data[1]), data[4..4 + n]) + data[4 + n..]
  {
    var n := U16(data[2], data[3]);
    Enc16Inverse(data[0], data[1]);
    Field16Written(data[2..]);
    assert data[2..][2..2 + n] == data[4..4 + n] && data[2..][2 + n..] == data[4 + n..];
    assert data == [data[0], data[1]] + data[2..];
  }

  lemma SkippedWritten(id: nat, body: bytes) returns (e: Skipped)
    requires id < 0x10000 && |body| < 0x10000
    requires id == RENEGOTIATION_INFO ==> body == [0]
    requires id == SERVER_NAME ==> ReadNameList(body).NoHostName?
    ensures ValidSkipped(e) && SerializeSkipped(e) == SerializeExtension(id, body)
  {
    if id == RENEGOTIATION_INFO {
      e := Renegotiation;
    } else if id == SERVER_NAME {
      NameListWritten(body);
      var names, rest := NamesWritten(body[2..]);
      assert SerializeNames(names) + [] == SerializeNames(names);
      e := NamesOnly(names);
    } else {
      e := Other(id, body);
    }
  }

  lemma HostExtensionWritten(body: bytes, later: bytes) returns (n: Naming)
    requires |body| < 0x10000 && ReadNameList(body).FoundName?
    ensures ValidNaming(n) && n.hostName == ReadNameList(body).name
    ensures Extensions(n) == SerializeExtension(SERVER_NAME, body) + later
  {
    NameListWritten(body);
    var names, rest := NamesWritten(body[2..]);
    var host := ReadNameList(body).name;
    var s := SerializeName(ServerName(HOST_NAME, host));
    n := Naming([], names, host, rest[|s|..], later);
    assert s + rest[|s|..] == rest;
    assert NameList(n) == body[2..];
    assert [] + (SerializeExtension(SERVER_NAME, body) + later) == SerializeExtension(SERVER_NAME, body) + later;
  }

  lemma NamingExtend(e: Skipped, tail: Naming) returns (n: Naming)
    requires ValidSkipped(e) && ValidNaming(tail)
    ensures ValidNaming(n) && n.hostName == tail.hostName
    ensures Extensions(n) == SerializeSkipped(e) + Extensions(tail)
  {
    n := tail.(skipped := [e] + tail.skipped);
    assert n.skipped[1..] == tail.skipped;
    assert NameList(n) == NameList(tail);
    var rest := SerializeExtension(SERVER_NAME, Field16(NameList(n))) + n.laterExtensions;
    assert SerializeAllSkipped(n.skipped) + rest
        == SerializeSkipped(e) + (SerializeAllSkipped(tail.skipped) + rest);
  }

  lemma {:induction false} ExtensionsWritten(data: bytes) returns (n: Naming)
    requires ReadExtensions(data).Host?
    ensures ValidNaming(n) && Extensions(n) == data
    ensures ReadExtensions(data).host == TrimSpace(n.hostName)
    decreases |data|
  {
    var id, len := U16(data[0], data[1]), U16(data[2], data[3]);
    var body, rest := data[4..4 + len], data[4 + len..];
    ExtensionWritten(data);
    if id == SERVER_NAME && ReadNameList(body).FoundName? {
      n := HostExtensionWritten(body, rest);
    } else {
      var e := SkippedWritten(id, body);
      var tail := ExtensionsWritten(rest);
      n := NamingExtend(e, tail);
    }
  }

  lemma CompressionWritten(d: bytes) returns (c: bytes, n: Naming)
    requires ReadCompression(d).Host?
    ensures |c| < 256 && ValidNaming(n) && |Extensions(n)| < 0x10000
    ensures d == Field8(c) + Field16(Extensions(n))
    ensures ReadCompression(d).host == TrimSpace(n.hostName)
  {
    var m := d[0] as int;
    var f := d[1 + m..];
    c := d[1..1 + m];
    assert d == Field8(c) + f;
    assert f[2..] == d[3 + m..] && f[0] == d[1 + m] && f[1] == d[2 + m];
    Field16Written(f);
    assert f == Field16(f[2..]);
    n := ExtensionsWritten(f[2..]);
  }

  lemma CiphersWritten(d: bytes) returns (c: bytes, rest: bytes)
    requires ReadCiphers(d).Host?
    ensures |c| < 0x10000 && |c| % 2 == 0 && d == Field16(c) + rest
    ensures ReadCiphers(d) == ReadCompression(rest)
  {
    var n := U16(d[0], d[1]);
    c, rest := d[2..2 + n], d[2 + n..];
    Field16Written(d);
  }

  lemma SessionWritten(data: bytes) returns (session: bytes, rest: bytes)
    requires |data| >= 47 && ReadHello(data).Host?
    ensures data[5] == TYPE_CLIENT_HELLO && |session| <= 32
    ensures data == data[..43] + (Field8(session) + rest)
    ensures ReadHello(data) == ReadCiphers(rest)
  {
    var n := data[43] as int;
    session, rest := data[44..44 + n], data[44 + n..];
    SplitAtSession(data, n);
  }

  lemma SplitAtSession(data: bytes, n: nat)
    requires |data| >= 44 + n && data[43] as int == n < 256
    ensures data == data[..43] + (Field8(data[44..44 + n]) + data[44 + n..])
  {
    assert data[43..] == [data[43]] + data[44..44 + n] + data[44 + n..];
  }

  lemma HelloWritten(data: bytes) returns (h: Hello)
    requires |data| >= 47 && ReadHello(data).Host?
    ensures ValidHello(h) && Serialize(h) == data
    ensures ReadHello(data).host == TrimSpace(h.naming.hostName)
  {
    var session, d1 := SessionWritten(data);
    var ciphers, d2 := CiphersWritten(d1);
    var compression, naming := CompressionWritten(d2);
    h := Hello(data[..43], session, ciphers, compression, naming);
  }

  ghost predicate Carries(data: bytes, host: bytes) {
    exists h: Hello :: IsHelloFor(h, data, host)
  }

  predicate IsHelloFor(h: Hello, data: bytes, host: bytes) {
    ValidHello(h) && Serialize(h) == data && TrimSpace(h.naming.hostName) == host
  }

  /** The reader accepts exactly the serialized messages, and answers exactly their first
      host name; every other byte sequence is rejected. */
  lemma AcceptedExactly(data: bytes, host: bytes)
    requires |data| >= 47
    ensures ReadHello(data) == Host(host) <==> Carries(data, host)
  {
    if ReadHello(data) == Host(host) {
      var h := HelloWritten(data);
      assert IsHelloFor(h, data, host);
    }
    if Carries(data, host) {
      var h: Hello :| IsHelloFor(h, data, host);
      ReadSerialized(h);
    }
  }

  // ---------------------------------------------------------------- messages that come in pieces

  lemma CompressionWhole(a: bytes, b: bytes)
    requires a <= b && ReadCompression(a).Host? && ReadCompression(b).Host?
    ensures a == b
  {
    var n := a[0] as int;
    assert a[1 + n] == b[1 + n] && a[2 + n] == b[2 + n];
  }

  lemma CiphersWhole(a: bytes, b: bytes)
    requires a <= b && ReadCiphers(a).Host? && ReadCiphers(b).Host?
    ensures a == b
  {
    var n := U16(a[0], a[1]);
    assert U16(b[0], b[1]) == n && a[2 + n..] <= b[2 + n..];
    CompressionWhole(a[2 + n..], b[2 + n..]);
  }

  /** No accepted message is the beginning of another. */
  lemma AcceptedWhole(a: bytes, b: bytes)
    requires |a| >= 47 && a <= b && ReadHello(a).Host? && ReadHello(b).Host?
    ensures a == b
  {
    var n := a[43] as int;
    assert a[44 + n..] <= b[44 + n..];
    CiphersWhole(a[44 + n..], b[44 + n..]);
  }

  /** The name of a message is read if and only if all of its bytes came, and no more. */
  lemma ReadIffWhole(data: bytes, host: bytes, received: bytes)
    requires |data| >= 47 && |received| >= 47 && Carries(data, host)
    requires received <= data || data <= received
    ensures ReadHello(received).Host? <==> received == data
  {
    AcceptedExactly(data, host);
    if ReadHello(received).Host? {
      if received <= data { AcceptedWhole(received, data); } else { AcceptedWhole(data, received); }
    }
  }

  // ---------------------------------------------------------------- trimming

  lemma {:induction false} ConcatAppend(cs: seq<bytes>, e: bytes)
    ensures Concat(cs + [e]) == Concat(cs) + e
  {
    if cs != [] {
      assert (cs + [e])[1..] == cs[1..] + [e];
      ConcatAppend(cs[1..], e);
    }
  }

  lemma AppendAssociative(a: bytes, b: bytes, c: bytes)
    ensures (a + b) + c == a + (b + c)
  {
  }

  predicate AllOf(f: bytes -> bool, cs: seq<bytes>) {
    forall i | 0 <= i < |cs| :: f(cs[i])
  }

  lemma {:induction false} TrimLeftParts(f: bytes -> bool, s: bytes) returns (pre: seq<bytes>)
    ensures AllOf(f, pre)
    ensures s == Concat(pre) + TrimLeft(f, s) && Leading(f, TrimLeft(f, s)) == 0
    decreases |s|
  {
    pre := [];
    if Leading(f, s) > 0 {
      var first, rest := TrimLeftStep(f, s);
      var p := TrimLeftParts(f, rest);
      pre := [first] + p;
      PrependPart(f, first, p, TrimLeft(f, rest));
    }
  }

  lemma TrimLeftStep(f: bytes -> bool, s: bytes) returns (first: bytes, rest: bytes)
    requires Leading(f, s) > 0
    ensures s == first + rest && |rest| < |s| && f(first) && TrimLeft(f, s) == TrimLeft(f, rest)
  {
    var n := Leading(f, s);
    first, rest := s[..n], s[n..];
  }

  lemma PrependPart(f: bytes -> bool, first: bytes, p: seq<bytes>, trimmed: bytes)
    requires f(first) && AllOf(f, p)
    ensures AllOf(f, [first] + p) && Concat([first] + p) + trimmed == first + (Concat(p) + trimmed)
  {
    assert ([first] + p)[1..] == p;
    AppendAssociative(first, Concat(p), trimmed);
  }

  lemma {:induction false} TrimRightParts(f: bytes -> bool, s: bytes) returns (post: seq<bytes>)
    ensures AllOf(f, post)
    ensures s == TrimRight(f, s) + Concat(post) && Trailing(f, TrimRight(f, s)) == 0
    decreases |s|
  {
    post := [];
    if Trailing(f, s) > 0 {
      var front, last := TrimRightStep(f, s);
      var p := TrimRightParts(f, front);
      post := p + [last];
      AppendPart(TrimRight(f, front), p, front, last, s);
    }
  }

  lemma TrimRightStep(f: bytes -> bool, s: bytes) returns (front: bytes, last: bytes)
    requires Trailing(f, s) > 0
    ensures s == front + last && |front| < |s| && f(last) && TrimRight(f, s) == TrimRight(f, front)
  {
    var n := Trailing(f, s);
    front, last := s[..|s| - n], s[|s| - n..];
  }

  lemma AppendPart(trimmed: bytes, p: seq<bytes>, front: bytes, last: bytes, s: bytes)
    requires front == trimmed + Concat(p) && s == front + last
    ensures s == trimmed + Concat(p + [last])
  {
    ConcatAppend(p, last);
    AppendAssociative(trimmed, Concat(p), last);
  }

  lemma LeadingFound(f: bytes -> bool, s: bytes, t: bytes)
    requires Leading(f, s) > 0
    ensures Leading(f, s + t) > 0
  {
    var n := Leading(f, s);
    assert (s + t)[..n] == s[..n];
  }

  lemma TrimMeaning(f: bytes -> bool, s: bytes) returns (pre: seq<bytes>, post: seq<bytes>)
    ensures AllOf(f, pre) && AllOf(f, post)
    ensures s == Concat(pre) + TrimRight(f, TrimLeft(f, s)) + Concat(post)
    ensures Leading(f, TrimRight(f, TrimLeft(f, s))) == 0 && Trailing(f, TrimRight(f, TrimLeft(f, s))) == 0
  {
    pre := TrimLeftParts(f, s);
    post := TrimRightParts(f, TrimLeft(f, s));
    var trimmed := TrimRight(f, TrimLeft(f, s));
    AppendAssociative(Concat(pre), trimmed, Concat(post));
    if Leading(f, trimmed) > 0 {
      LeadingFound(f, trimmed, Concat(post));
    }
  }

  /** Trimming takes white-space characters off both ends and leaves none there. */
  lemma TrimSpaceMeaning(s: bytes) returns (pre: seq<bytes>, post: seq<bytes>)
    ensures AllOf(IsSpace, pre) && AllOf(IsSpace, post)
    ensures s == Concat(pre) + TrimSpace(s) + Concat(post)
    ensures Leading(IsSpace, TrimSpace(s)) == 0 && Trailing(IsSpace, TrimSpace(s)) == 0
  {
    pre, post := TrimMeaning(IsSpace, s);
  }
}
