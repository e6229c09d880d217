/**
 * The start request address built in AutoServer.startServer:
 * "http://" + host string + ":" + port + "/start", with the port written
 * in decimal as Java's string concatenation of an int does. The parser is
 * its inverse, used to state that the address determines host and port.
 */
module StartUrl {
  import opened Wrappers

  /** InetSocketAddress.getPort() is always in 0..65535. */
  type Port = p: int | 0 <= p < 0x1_0000

  const Scheme := "http://"
  const StartPath := "/start"

  datatype Address = Address(host: string, port: nat)

  predicate IsDigit(c: char) { '0' <= c <= '9' }

  predicate AllDigits(s: string) { forall i :: 0 <= i < |s| ==> IsDigit(s[i]) }

  function DigitChar(d: nat): (c: char)
    requires d < 10
    ensures IsDigit(c) && c as int - '0' as int == d
  {
    ('0' as int + d) as char
  }

  /** Integer.toString for a non-negative value: no sign, no leading zero. */
  function DecimalString(n: nat): (s: string)
    ensures |s| >= 1 && AllDigits(s)
    ensures n > 0 ==> s[0] != '0'
    decreases n
  {
    if n < 10 then [DigitChar(n)] else DecimalString(n / 10) + [DigitChar(n % 10)]
  }

  /** The value of a string of decimal digits. */
  function DigitsValue(s: string): nat
    requires AllDigits(s)
  {
    if s == [] then 0 else DigitsValue(s[..|s| - 1]) * 10 + (s[|s| - 1] as int - '0' as int)
  }

  lemma {:induction false} DecimalRoundTrip(n: nat)
    ensures DigitsValue(DecimalString(n)) == n
    decreases n
  {
    var s := DecimalString(n);
    if n >= 10 {
      DecimalRoundTrip(n / 10);
      assert s[..|s| - 1] == DecimalString(n / 10);
    }
  }

  /** The request address for a server's host string and port (AutoServer.java line 187). */
  function StartRequestUrl(host: string, port: Port): (url: string)
    ensures |url| == |Scheme| + |host| + 1 + |DecimalString(port)| + |StartPath|
    ensures url[..|Scheme|] == Scheme && url[|url| - |StartPath|..] == StartPath
  {
    Scheme + host + ":" + DecimalString(port) + StartPath
  }

  /** Index of the last ':' in s, if any. */
  function LastColon(s: string): (r: Option<nat>)
    ensures r.Some? ==> r.value < |s| && s[r.value] == ':' && forall i :: r.value < i < |s| ==> s[i] != ':'
    ensures r.None? ==> forall i :: 0 <= i < |s| ==> s[i] != ':'
  {
    if s == [] then None
    else if s[|s| - 1] == ':' then Some(|s| - 1)
    else LastColon(s[..|s| - 1])
  }

  /** Recovers host and port from a start request address; the port is what follows the last ':'. */
  function ParseStartRequestUrl(url: string): (r: Option<Address>)
  {
    if |url| < |Scheme| + |StartPath| || url[..|Scheme|] != Scheme || url[|url| - |StartPath|..] != StartPath then None
    else
      var authority := url[|Scheme|..|url| - |StartPath|];
      match LastColon(authority)
      case None => None
      case Some(k) =>
        var digits := authority[k + 1..];
        if digits != [] && AllDigits(digits) then Some(Address(authority[..k], DigitsValue(digits))) else None
  }

  /** The host string and the port can be read back from the address, whatever the host contains. */
  lemma {:induction false} StartRequestUrlRoundTrip(host: string, port: Port)
    ensures ParseStartRequestUrl(StartRequestUrl(host, port)) == Some(Address(host, port))
  {
    var url := StartRequestUrl(host, port);
    var digits := DecimalString(port);
    var authority := url[|Scheme|..|url| - |StartPath|];
    assert authority == host + ":" + digits;
    var k := |host|;
    assert authority[k] == ':';
    forall i | k < i < |authority| ensures authority[i] != ':' {
      assert authority[i] == digits[i - k - 1];
    }
    var lc := LastColon(authority);
    assert lc == Some(k);
    assert authority[..k] == host;
    assert authority[k + 1..] == digits;
    DecimalRoundTrip(port);
  }

  /** Different servers' addresses (host or port) never share a request address. */
  lemma StartRequestUrlInjective(h1: string, p1: Port, h2: string, p2: Port)
    requires StartRequestUrl(h1, p1) == StartRequestUrl(h2, p2)
    ensures h1 == h2 && p1 == p2
  {
    StartRequestUrlRoundTrip(h1, p1);
    StartRequestUrlRoundTrip(h2, p2);
  }
}
