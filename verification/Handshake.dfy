/** The loop that pulls the server name out of a ClientHello, reslicing its buffer as it goes. */
module Handshake {
  import opened ClientHello

  /** What one read from the connection gave. */
  datatype ReadResult = Got(data: bytes) | ReadError

  /** `first` is the outcome of reading exactly 47 bytes, `second` that of the single read into
      the remaining 977 bytes of the buffer. */
  method ReadHandshake(first: ReadResult, second: ReadResult) returns (r: Outcome)
    requires first.Got? ==> |first.data| == 47
    requires second.Got? ==> |second.data| <= 977
    ensures first.Got? && second.Got? ==> r == ReadHello(first.data + second.data)
    ensures first.ReadError? || second.ReadError? ==> r == Failed(ReadFailed)
  {
    if first.ReadError? { return Failed(ReadFailed); }
    if second.ReadError? { return Failed(ReadFailed); }
    var data := first.data + second.data;
    ghost var hello := data;
    if data[5] != TYPE_CLIENT_HELLO { return Failed(NotClientHello); }

    var sessionIdLen := data[43] as int;
    if sessionIdLen > 32 || |data| < 44 + sessionIdLen { return Failed(SessionLong); }
    data := data[44 + sessionIdLen..];
    assert ReadHello(hello) == ReadCiphers(data);
    if |data| < 2 { return Failed(AfterSessionShort); }
    r := ReadAfterSession(data);
  }

  /** The rest of the message, from the cipher suites on. */
  method ReadAfterSession(rest: bytes) returns (r: Outcome)
    requires |rest| >= 2
    ensures r == ReadCiphers(rest)
  {
    var data := rest;
    var cipherSuiteLen := U16(data[0], data[1]);
    if cipherSuiteLen % 2 == 1 || |data| < 2 + cipherSuiteLen { return Failed(CiphersShort); }
    data := data[2 + cipherSuiteLen..];
    if |data| < 1 { return Failed(CiphersLong); }
    r := ReadAfterCiphers(data);
  }

  /** The rest of the message, from the compression methods on. */
  method ReadAfterCiphers(rest: bytes) returns (r: Outcome)
    requires |rest| >= 1
    ensures r == ReadCompression(rest)
  {
    var data := rest;
    var compressionMethodsLen := data[0] as int;
    if |data| < 1 + compressionMethodsLen { return Failed(CompressionLong); }
    data := data[1 + compressionMethodsLen..];
    if |data| == 0 { return Failed(NoExtensions); }
    if |data| < 2 { return Failed(ExtensionsShort); }

    var extensionsLength := U16(data[0], data[1]);
    data := data[2..];
    assert data == rest[3 + compressionMethodsLen..];
    if extensionsLength != |data| { return Failed(ExtensionsMismatch); }
    r := ScanExtensions(data);
  }

  /** The outer loop, over the extensions. */
  method ScanExtensions(extensions: bytes) returns (r: Outcome)
    ensures r == ReadExtensions(extensions)
  {
    var data := extensions;
    while |data| != 0
      invariant ReadExtensions(extensions) == ReadExtensions(data)
      decreases |data|
    {
      if |data| < 4 { return Failed(ExtensionHeaderShort); }
      ghost var whole := data;
      var extension := U16(data[0], data[1]);
      var length := U16(data[2], data[3]);
      data := data[4..];
      if |data| < length { return Failed(ExtensionLong); }
      assert data[..length] == whole[4..4 + length];
      if extension == RENEGOTIATION_INFO {
        if length != 1 || data[0] != 0 { return Failed(BadRenegotiation); }
      } else if extension == SERVER_NAME {
        var scan := ScanNames(data[..length]);
        match scan {
          case BadNames(e) => return Failed(e);
          case FoundName(name) => return Host(TrimSpace(name));
          case NoHostName =>
        }
      }
      data := data[length..];
      assert data == whole[4 + length..];
    }
    r := Failed(NoServerName);
  }

  /** The inner loop, over the names of one server_name extension. */
  method ScanNames(body: bytes) returns (r: NameScan)
    ensures r == ReadNameList(body)
  {
    var d := body;
    if |d| < 2 { return BadNames(NameListShort); }
    var namesLen := U16(d[0], d[1]);
    d := d[2..];
    if |d| != namesLen { return BadNames(NameListMismatch); }
    while |d| > 0
      invariant ReadNameList(body) == ReadNames(d)
      decreases |d|
    {
      if |d| < 3 { return BadNames(NameHeaderShort); }
      ghost var whole := d;
      var nameType := d[0];
      var nameLen := U16(d[1], d[2]);
      d := d[3..];
      if |d| < nameLen { return BadNames(NameLong); }
      assert d[..nameLen] == whole[3..3 + nameLen];
      if nameType == HOST_NAME { return FoundName(d[..nameLen]); }
      d := d[nameLen..];
      assert d == whole[3 + nameLen..];
    }
    r := NoHostName;
  }

  /** The host the muxer takes from a connection: some `host` exactly when the bytes received are a
      well-formed ClientHello whose first host name, trimmed, is `host`. A message of which only the
      beginning came with the two reads, as any that is longer than 1024 bytes, is refused. */
  method GetHTTPSHostname(first: bytes, second: bytes) returns (r: Outcome)
    requires |first| == 47 && |second| <= 977
    ensures forall host :: r == Host(host) <==> Carries(first + second, host)
    ensures forall hello, host :: Carries(hello, host) && first + second < hello ==> r.Failed?
  {
    r := ReadHandshake(Got(first), Got(second));
    forall hello, host | Carries(hello, host) && first + second < hello ensures r.Failed? {
      ReadIffWhole(hello, host, first + second);
    }
    forall host ensures r == Host(host) <==> Carries(first + second, host) {
      AcceptedExactly(first + second, host);
    }
  }
}
