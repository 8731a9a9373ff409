/** Addresses as they are reported to the client. */
module Addresses {
  import Names

  function Digit(d: nat): char
    requires d < 10
  {
    "0123456789"[d]
  }

  function Digits(n: nat): string {
    (if n < 10 then "" else Digits(n / 10)) + [Digit(n % 10)]
  }

  /** An integer in decimal. */
  function Decimal(n: int): string {
    if n < 0 then "-" + Digits(-n) else Digits(n)
  }

  /** A host and its port; the port is left out if it is a standard one. */
  function CanonicalAddr(host: string, port: int): string {
    if port == 80 || port == 443 then host else host + ":" + Decimal(port)
  }

  /** `strings.Join(addrs, ",")`. */
  function CommaJoined(addrs: seq<string>): string {
    if addrs == [] then "" else Names.Join(addrs, ',')
  }

  /** The address of a proxy that listens on `port`. */
  function RemoteAddr(port: int): string {
    ":" + Decimal(port)
  }

  // ---------------------------------------------------------------- reading addresses

  predicate AllDigits(s: string) {
    forall i | 0 <= i < |s| :: '0' <= s[i] <= '9'
  }

  /** The number that is written in decimal. */
  function Value(s: string): nat
    requires AllDigits(s)
  {
    if s == "" then 0 else 10 * Value(s[..|s| - 1]) + (s[|s| - 1] as int - '0' as int)
  }

  lemma DigitRead(d: nat)
    requires d < 10
    ensures '0' <= Digit(d) <= '9' && Digit(d) as int - '0' as int == d
  {
    assert d == 0 || d == 1 || d == 2 || d == 3 || d == 4 || d == 5 || d == 6 || d == 7 || d == 8 || d == 9;
  }

  lemma ValueAppend(s: string, d: nat)
    requires AllDigits(s) && d < 10
    ensures AllDigits(s + [Digit(d)]) && Value(s + [Digit(d)]) == 10 * Value(s) + d
  {
    DigitRead(d);
    assert (s + [Digit(d)])[..|s|] == s;
  }

  /** A number is written in decimal digits, without a leading zero, and read back. */
  lemma {:induction false} DigitsRead(n: nat)
    ensures AllDigits(Digits(n)) && Value(Digits(n)) == n
    ensures |Digits(n)| >= 1 && (Digits(n)[0] == '0' <==> n == 0)
  {
    if n < 10 {
      ValueAppend("", n);
      DigitRead(n);
      assert Digits(n) == "" + [Digit(n)];
    } else {
      DigitsRead(n / 10);
      ValueAppend(Digits(n / 10), n % 10);
    }
  }

  /** The address of a proxy is a colon and its port. */
  lemma RemoteAddrMeans(port: nat)
    ensures var addr := RemoteAddr(port); addr[0] == ':' && AllDigits(addr[1..]) && Value(addr[1..]) == port
  {
    DigitsRead(port);
    assert RemoteAddr(port)[1..] == Digits(port);
  }

  /** The address of a host is the host alone for the ports 80 and 443, and otherwise followed by a colon
      and the port. */
  lemma CanonicalAddrMeans(host: string, port: nat)
    ensures var addr, n := CanonicalAddr(host, port), |host|;
            && n <= |addr| && addr[..n] == host
            && (addr == host <==> port == 80 || port == 443)
            && (addr != host ==>
                  n < |addr| && addr[n] == ':' && AllDigits(addr[n + 1..]) && Value(addr[n + 1..]) == port)
  {
    DigitsRead(port);
    if port != 80 && port != 443 {
      var addr := CanonicalAddr(host, port);
      assert addr == host + ":" + Digits(port);
      assert addr[|host| + 1..] == Digits(port);
    }
  }

  /** The list of addresses is split again at its commas, if there are none inside. */
  lemma CommaJoinedRead(addrs: seq<string>)
    requires addrs != [] && forall i | 0 <= i < |addrs| :: ',' !in addrs[i]
    ensures Names.Split(CommaJoined(addrs), ',') == addrs
  {
    forall i | 0 <= i < |addrs| ensures Names.Label(addrs[i], ',') {}
    Names.SplitJoin(addrs, ',');
  }

  lemma AddressTellsPort(a: int, b: int)
    requires RemoteAddr(a) == RemoteAddr(b)
    ensures a == b
  {
    assert RemoteAddr(a)[1..] == Decimal(a) && RemoteAddr(b)[1..] == Decimal(b);
    var m, n := if a < 0 then -a else a, if b < 0 then -b else b;
    DigitsRead(m);
    DigitsRead(n);
    assert a < 0 ==> Decimal(a)[0] == '-' && Decimal(a)[1..] == Digits(m);
    assert b < 0 ==> Decimal(b)[0] == '-' && Decimal(b)[1..] == Digits(n);
  }
}
